/** The in-memory conversation store used when no database is configured:
    two lists, of conversations (newest first) and of messages (in arrival
    order). Ids and clock readings are passed in; a time is the number of
    milliseconds that `new Date(iso).getTime()` gives for the stored ISO text. */
module MemoryStorage {
  import opened Wrappers
  import opened Text

  datatype Conversation = Conversation(id: string, userId: string, title: string, createdAt: int, updatedAt: int,
                                       lastMessage: Option<string>)

  datatype Role = User | Assistant

  datatype Message = Message(id: string, conversationId: string, role: Role, content: string, timestamp: int)

  /** The fields an update may carry; `updatedAt` is always overwritten. */
  datatype ConversationPatch = ConversationPatch(id: Option<string>, userId: Option<string>, title: Option<string>,
                                                 createdAt: Option<int>, lastMessage: Option<string>)

  /** `Array.prototype.filter`. */
  function Filter<T(!new)>(s: seq<T>, keep: T -> bool): (r: seq<T>)
    ensures |r| <= |s|
    ensures forall x :: x in r <==> x in s && keep(x)
    ensures multiset(r) <= multiset(s)
  {
    if |s| == 0 then []
    else
      var r := Filter(s[..|s| - 1], keep) + (if keep(s[|s| - 1]) then [s[|s| - 1]] else []);
      assert s == s[..|s| - 1] + [s[|s| - 1]];
      r
  }

  /** Filtering a list with one more element at the end. */
  lemma FilterSnoc<T(!new)>(s: seq<T>, x: T, keep: T -> bool)
    ensures Filter(s + [x], keep) == Filter(s, keep) + if keep(x) then [x] else []
  {
    var u := s + [x];
    assert u[..|u| - 1] == s && u[|u| - 1] == x;
  }

  /** Filtering keeps exactly the kept elements, each as often as before. */
  lemma {:induction false} FilterCount<T(!new)>(s: seq<T>, keep: T -> bool, x: T)
    ensures multiset(Filter(s, keep))[x] == if keep(x) then multiset(s)[x] else 0
  {
    if |s| > 0 {
      var init, last := s[..|s| - 1], s[|s| - 1];
      assert s == init + [last];
      FilterCount(init, keep, x);
      FilterSnoc(init, last, keep);
    }
  }

  /** Filtering with a test every element passes changes nothing. */
  lemma {:induction false} FilterAll<T(!new)>(s: seq<T>, keep: T -> bool)
    requires forall i :: 0 <= i < |s| ==> keep(s[i])
    ensures Filter(s, keep) == s
  {
    if |s| > 0 {
      var init, last := s[..|s| - 1], s[|s| - 1];
      assert s == init + [last];
      assert forall i :: 0 <= i < |init| ==> keep(init[i]) by {
        forall i | 0 <= i < |init| ensures keep(init[i]) {
          assert init[i] == s[i];
        }
      }
      FilterAll(init, keep);
      FilterSnoc(init, last, keep);
    }
  }

  /** Filtering distributes over appending. */
  lemma {:induction false} FilterAppend<T(!new)>(s: seq<T>, t: seq<T>, keep: T -> bool)
    ensures Filter(s + t, keep) == Filter(s, keep) + Filter(t, keep)
    decreases |t|
  {
    if |t| == 0 {
      assert s + t == s;
    } else {
      var init, last := t[..|t| - 1], t[|t| - 1];
      assert t == init + [last];
      assert s + t == (s + init) + [last];
      var tail := if keep(last) then [last] else [];
      calc {
        Filter(s + t, keep);
      == { FilterSnoc(s + init, last, keep); }
        Filter(s + init, keep) + tail;
      == { FilterAppend(s, init, keep); }
        (Filter(s, keep) + Filter(init, keep)) + tail;
      == { assert (Filter(s, keep) + Filter(init, keep)) + tail == Filter(s, keep) + (Filter(init, keep) + tail); }
        Filter(s, keep) + (Filter(init, keep) + tail);
      == { FilterSnoc(init, last, keep); }
        Filter(s, keep) + Filter(t, keep);
      }
    }
  }

  // ---------------------------------------------------------------- sorting

  predicate SortedBy<T>(s: seq<T>, key: T -> int)
  {
    forall i, j :: 0 <= i < j < |s| ==> key(s[i]) <= key(s[j])
  }

  /** Insert `x` after every element whose key is at most its own. */
  function Insert<T>(sorted: seq<T>, x: T, key: T -> int): (r: seq<T>)
    ensures multiset(r) == multiset(sorted) + multiset{x}
    ensures |r| == |sorted| + 1
  {
    if |sorted| == 0 || key(sorted[|sorted| - 1]) <= key(x) then sorted + [x]
    else
      assert sorted == sorted[..|sorted| - 1] + [sorted[|sorted| - 1]];
      Insert(sorted[..|sorted| - 1], x, key) + [sorted[|sorted| - 1]]
  }

  lemma {:induction false} InsertSorted<T(!new)>(sorted: seq<T>, x: T, key: T -> int)
    requires SortedBy(sorted, key)
    ensures SortedBy(Insert(sorted, x, key), key)
    ensures forall y :: y in Insert(sorted, x, key) ==> y == x || y in sorted
  {
    if |sorted| > 0 && key(sorted[|sorted| - 1]) > key(x) {
      var init := sorted[..|sorted| - 1];
      InsertSorted(init, x, key);
      var r := Insert(init, x, key);
      forall y | y in r ensures key(y) <= key(sorted[|sorted| - 1]) {
        if y != x {
          var k :| 0 <= k < |init| && init[k] == y;
          assert sorted[k] == y;
        }
      }
    }
  }

  /** The stable sort by ascending key (`Array.prototype.sort` is stable). */
  function SortBy<T>(s: seq<T>, key: T -> int): (r: seq<T>)
  {
    if |s| == 0 then [] else Insert(SortBy(s[..|s| - 1], key), s[|s| - 1], key)
  }

  /** The sort orders by key and rearranges without adding or losing anything. */
  lemma {:induction false} SortByCorrect<T(!new)>(s: seq<T>, key: T -> int)
    ensures SortedBy(SortBy(s, key), key)
    ensures multiset(SortBy(s, key)) == multiset(s)
  {
    if |s| > 0 {
      SortByCorrect(s[..|s| - 1], key);
      InsertSorted(SortBy(s[..|s| - 1], key), s[|s| - 1], key);
      assert s == s[..|s| - 1] + [s[|s| - 1]];
    }
  }

  /** The sort keeps exactly the members of its input. */
  lemma SortByMembers<T(!new)>(s: seq<T>, key: T -> int)
    ensures forall x :: x in SortBy(s, key) <==> x in s
  {
    SortByCorrect(s, key);
    forall x ensures x in SortBy(s, key) <==> x in s {
      assert x in SortBy(s, key) <==> x in multiset(SortBy(s, key));
      assert x in s <==> x in multiset(s);
    }
  }

  /** The elements of key `k`, in their order in `s`. */
  function OfKey<T>(s: seq<T>, key: T -> int, k: int): seq<T>
  {
    if |s| == 0 then []
    else OfKey(s[..|s| - 1], key, k) + if key(s[|s| - 1]) == k then [s[|s| - 1]] else []
  }

  lemma OfKeySnoc<T>(s: seq<T>, x: T, key: T -> int, k: int)
    ensures OfKey(s + [x], key, k) == OfKey(s, key, k) + if key(x) == k then [x] else []
  {
    var u := s + [x];
    assert u[..|u| - 1] == s && u[|u| - 1] == x;
  }

  /** Inserting moves `x` only past elements of a larger key, so among the
      elements of any one key it comes last. */
  lemma {:induction false} InsertStable<T>(sorted: seq<T>, x: T, key: T -> int, k: int)
    ensures OfKey(Insert(sorted, x, key), key, k) == OfKey(sorted, key, k) + if key(x) == k then [x] else []
  {
    if |sorted| == 0 || key(sorted[|sorted| - 1]) <= key(x) {
      OfKeySnoc(sorted, x, key, k);
    } else {
      var init, last := sorted[..|sorted| - 1], sorted[|sorted| - 1];
      var moved := Insert(init, x, key);
      InsertStable(init, x, key, k);
      OfKeySnoc(moved, last, key, k);
      if key(x) == k {
        calc {
          OfKey(Insert(sorted, x, key), key, k);
          OfKey(moved + [last], key, k);
          OfKey(moved, key, k);
          OfKey(init, key, k) + [x];
          OfKey(sorted, key, k) + [x];
        }
      }
    }
  }

  /** The sort is stable: the elements of each key keep their input order. */
  lemma {:induction false} SortByStable<T>(s: seq<T>, key: T -> int, k: int)
    ensures OfKey(SortBy(s, key), key, k) == OfKey(s, key, k)
  {
    if |s| > 0 {
      SortByStable(s[..|s| - 1], key, k);
      InsertStable(SortBy(s[..|s| - 1], key), s[|s| - 1], key, k);
    }
  }

  /** A list already in order is left as it is. */
  lemma {:induction false} SortBySortedIsIdentity<T>(s: seq<T>, key: T -> int)
    requires SortedBy(s, key)
    ensures SortBy(s, key) == s
  {
    if |s| > 0 {
      var init, last := s[..|s| - 1], s[|s| - 1];
      assert SortedBy(init, key) by {
        forall i, j | 0 <= i < j < |init| ensures key(init[i]) <= key(init[j]) {
          assert init[i] == s[i] && init[j] == s[j];
        }
      }
      assert |init| == 0 || key(init[|init| - 1]) <= key(last) by {
        if |init| > 0 {
          assert init[|init| - 1] == s[|s| - 2];
        }
      }
      calc {
        SortBy(s, key);
        Insert(SortBy(init, key), last, key);
      == { SortBySortedIsIdentity(init, key); }
        Insert(init, last, key);
        init + [last];
      == { assert s == init + [last]; }
        s;
      }
    }
  }

  /** The sort key of the conversation list: newest `updatedAt` first. */
  function NewestFirst(c: Conversation): int
  {
    -c.updatedAt
  }

  function Oldest(m: Message): int
  {
    m.timestamp
  }

  // ---------------------------------------------------------------- update

  /** `{...conversation, ...updates, updatedAt}`. */
  function Merge(c: Conversation, patch: ConversationPatch, updatedAt: int): (r: Conversation)
    ensures r.updatedAt == updatedAt
    ensures r.title == patch.title.GetOr(c.title) && r.lastMessage == (if patch.lastMessage.Some? then patch.lastMessage else c.lastMessage)
    ensures r.id == patch.id.GetOr(c.id) && r.userId == patch.userId.GetOr(c.userId) && r.createdAt == patch.createdAt.GetOr(c.createdAt)
  {
    Conversation(patch.id.GetOr(c.id), patch.userId.GetOr(c.userId), patch.title.GetOr(c.title),
                 patch.createdAt.GetOr(c.createdAt), updatedAt,
                 if patch.lastMessage.Some? then patch.lastMessage else c.lastMessage)
  }

  /** `findIndex` by id, as an option. */
  function IndexOf(cs: seq<Conversation>, id: string): (r: Option<nat>)
    ensures r.Some? ==> r.value < |cs| && cs[r.value].id == id && forall k :: 0 <= k < r.value ==> cs[k].id != id
    ensures r.None? ==> forall k :: 0 <= k < |cs| ==> cs[k].id != id
  {
    if |cs| == 0 then None
    else if cs[0].id == id then Some(0)
    else match IndexOf(cs[1..], id)
      case Some(k) => Some(k + 1)
      case None => None
  }

  /** The conversation list after `updateConversationInMemory`. */
  function Updated(cs: seq<Conversation>, id: string, patch: ConversationPatch, updatedAt: int): (r: seq<Conversation>)
    ensures |r| == |cs|
    ensures (forall k :: 0 <= k < |cs| ==> cs[k].id != id) ==> r == cs
    ensures forall k :: 0 <= k < |cs| ==>
      r[k] == if IndexOf(cs, id) == Some(k) then Merge(cs[k], patch, updatedAt) else cs[k]
  {
    match IndexOf(cs, id)
    case Some(i) => cs[i := Merge(cs[i], patch, updatedAt)]
    case None => cs
  }

  /** An update touches only the first conversation with the id, and a
      second identical update leaves its fields as the first one set them. */
  lemma UpdatedTwice(cs: seq<Conversation>, id: string, patch: ConversationPatch, updatedAt: int)
    requires patch.id.None? || patch.id == Some(id)
    ensures Updated(Updated(cs, id, patch, updatedAt), id, patch, updatedAt) == Updated(cs, id, patch, updatedAt)
  {
    var once := Updated(cs, id, patch, updatedAt);
    match IndexOf(cs, id)
    case None =>
    case Some(i) =>
      assert IndexOf(once, id) == Some(i) by {
        assert once[i].id == id;
        assert forall k :: 0 <= k < i ==> once[k] == cs[k];
      }
  }

  /** The messages and conversations that remain after deleting `id`. */
  function ConversationKept(id: string): Conversation -> bool
  {
    (c: Conversation) => c.id != id
  }

  function MessageKept(id: string): Message -> bool
  {
    (m: Message) => m.conversationId != id
  }

  function OfUser(userId: string): Conversation -> bool
  {
    (c: Conversation) => c.userId == userId
  }

  function InConversation(id: string): Message -> bool
  {
    (m: Message) => m.conversationId == id
  }

  /** The store. */
  class MemoryStore {
    var conversations: seq<Conversation>
    var messages: seq<Message>

    constructor()
      ensures conversations == [] && messages == []
    {
      conversations := [];
      messages := [];
    }

    /** `createConversationInMemory`: the new conversation goes first. */
    method CreateConversation(userId: string, title: string, id: string, createdAt: int, updatedAt: int)
      returns (conversation: Conversation)
      modifies this
      ensures conversation == Conversation(id, userId, title, createdAt, updatedAt, None)
      ensures conversations == [conversation] + old(conversations)
      ensures messages == old(messages)
    {
      conversation := Conversation(id, userId, title, createdAt, updatedAt, None);
      conversations := [conversation] + conversations;
    }

    /** `getConversationsInMemory`: the user's conversations, most recently
        updated first. */
    function GetConversations(userId: string): (r: seq<Conversation>)
      reads this
      ensures multiset(r) == multiset(Filter(conversations, OfUser(userId)))
      ensures forall c :: c in r <==> c in conversations && c.userId == userId
      ensures forall i, j :: 0 <= i < j < |r| ==> r[i].updatedAt >= r[j].updatedAt
    {
      var mine := Filter(conversations, OfUser(userId));
      SortByCorrect(mine, NewestFirst);
      SortByMembers(mine, NewestFirst);
      SortBy(mine, NewestFirst)
    }

    /** `updateConversationInMemory`: find the first conversation with the
        id and replace it by the merge. */
    method UpdateConversation(conversationId: string, updates: ConversationPatch, updatedAt: int)
      modifies this
      ensures conversations == Updated(old(conversations), conversationId, updates, updatedAt)
      ensures messages == old(messages)
    {
      var index := 0;
      while index < |conversations| && conversations[index].id != conversationId
        invariant 0 <= index <= |conversations|
        invariant forall k :: 0 <= k < index ==> conversations[k].id != conversationId
      {
        index := index + 1;
      }
      if index < |conversations| {
        conversations := conversations[index := Merge(conversations[index], updates, updatedAt)];
      }
    }

    /** `deleteConversationInMemory`: drop the conversation and its messages. */
    method DeleteConversation(conversationId: string)
      modifies this
      ensures conversations == Filter(old(conversations), ConversationKept(conversationId))
      ensures messages == Filter(old(messages), MessageKept(conversationId))
      ensures forall c :: c in conversations ==> c.id != conversationId
      ensures forall m :: m in messages ==> m.conversationId != conversationId
    {
      conversations := Filter(conversations, ConversationKept(conversationId));
      messages := Filter(messages, MessageKept(conversationId));
    }

    /** `saveMessageInMemory`: append the message, then record its first 100
        characters as the conversation's last message. */
    method SaveMessage(conversationId: string, role: Role, content: string, id: string, timestamp: int, updatedAt: int)
      returns (message: Message)
      modifies this
      ensures message == Message(id, conversationId, role, content, timestamp)
      ensures messages == old(messages) + [message]
      ensures conversations == Updated(old(conversations), conversationId, LastMessagePatch(content), updatedAt)
    {
      message := Message(id, conversationId, role, content, timestamp);
      messages := messages + [message];
      UpdateConversation(conversationId, LastMessagePatch(content), updatedAt);
    }

    /** `getMessagesInMemory`: the conversation's messages, oldest first. */
    function GetMessages(conversationId: string): (r: seq<Message>)
      reads this
      ensures multiset(r) == multiset(Filter(messages, InConversation(conversationId)))
      ensures forall m :: m in r <==> m in messages && m.conversationId == conversationId
      ensures forall i, j :: 0 <= i < j < |r| ==> r[i].timestamp <= r[j].timestamp
    {
      var mine := Filter(messages, InConversation(conversationId));
      SortByCorrect(mine, Oldest);
      SortByMembers(mine, Oldest);
      SortBy(mine, Oldest)
    }
  }

  /** The update `saveMessageInMemory` applies to the conversation. */
  function LastMessagePatch(content: string): (p: ConversationPatch)
    ensures p.lastMessage == Some(Take(content, 100)) && |p.lastMessage.value| <= 100
    ensures p.id.None? && p.userId.None? && p.title.None? && p.createdAt.None?
  {
    ConversationPatch(None, None, None, None, Some(Take(content, 100)))
  }

  /** Saving a message appends it to the conversation's message list: the
      query afterwards is the earlier one with the new message sorted in. */
  lemma SavedMessageIsListed(messages: seq<Message>, m: Message)
    ensures Filter(messages + [m], InConversation(m.conversationId))
         == Filter(messages, InConversation(m.conversationId)) + [m]
  {
    FilterAppend(messages, [m], InConversation(m.conversationId));
    assert [m][..0] == [];
  }
}
