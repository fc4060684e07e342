/**
 * The chat list store of frontend/src/lib/stores/index.ts: a mutable cell holding a
 * list of chats, changed by prepending, updating by id (an object spread), deleting
 * by id (a filter), clearing, and reloading from what the browser saved.
 */
module Chats {
  import opened Wrappers

  // ---------------------------------------------------------------------------
  // Records
  // ---------------------------------------------------------------------------

  datatype MessageRole = UserRole | AssistantRole

  datatype Message = Message(id: string, content: string, role: MessageRole, timestamp: int)

  datatype Chat = Chat(id: string, title: string, messages: seq<Message>, timestamp: int, model: string)

  /** A `Partial<Chat>`: each field is either given (Some) or absent (None). */
  datatype ChatUpdate = ChatUpdate(
    id: Option<string>,
    title: Option<string>,
    messages: Option<seq<Message>>,
    timestamp: Option<int>,
    model: Option<string>)

  /** The update that gives no field. */
  const NoChange := ChatUpdate(None, None, None, None, None)

  /** `{ ...chat, ...updates }`: every field the update gives replaces the chat's. */
  function Merge(c: Chat, u: ChatUpdate): Chat {
    Chat(u.id.GetOr(c.id), u.title.GetOr(c.title), u.messages.GetOr(c.messages),
         u.timestamp.GetOr(c.timestamp), u.model.GetOr(c.model))
  }

  /** `{ ...first, ...second }` on two updates: a field given by `second` wins. */
  function Combine(first: ChatUpdate, second: ChatUpdate): ChatUpdate {
    ChatUpdate(
      if second.id.Some? then second.id else first.id,
      if second.title.Some? then second.title else first.title,
      if second.messages.Some? then second.messages else first.messages,
      if second.timestamp.Some? then second.timestamp else first.timestamp,
      if second.model.Some? then second.model else first.model)
  }

  // ---------------------------------------------------------------------------
  // Merging
  // ---------------------------------------------------------------------------

  /** Each field given by the update takes the update's value; each absent field keeps
      the chat's value. */
  lemma MergeOverridesGivenFields(c: Chat, u: ChatUpdate)
    ensures u.id.Some? ==> Merge(c, u).id == u.id.value
    ensures u.id.None? ==> Merge(c, u).id == c.id
    ensures u.title.Some? ==> Merge(c, u).title == u.title.value
    ensures u.title.None? ==> Merge(c, u).title == c.title
    ensures u.messages.Some? ==> Merge(c, u).messages == u.messages.value
    ensures u.messages.None? ==> Merge(c, u).messages == c.messages
    ensures u.timestamp.Some? ==> Merge(c, u).timestamp == u.timestamp.value
    ensures u.timestamp.None? ==> Merge(c, u).timestamp == c.timestamp
    ensures u.model.Some? ==> Merge(c, u).model == u.model.value
    ensures u.model.None? ==> Merge(c, u).model == c.model
  {
  }

  /** An update with no field leaves the chat as it is. */
  lemma MergeNoChange(c: Chat)
    ensures Merge(c, NoChange) == c
  {
  }

  /** Applying the same update twice is applying it once. */
  lemma MergeIdempotent(c: Chat, u: ChatUpdate)
    ensures Merge(Merge(c, u), u) == Merge(c, u)
  {
  }

  /** Two updates in a row are the one update that combines them. */
  lemma MergeCombine(c: Chat, first: ChatUpdate, second: ChatUpdate)
    ensures Merge(Merge(c, first), second) == Merge(c, Combine(first, second))
  {
  }

  // ---------------------------------------------------------------------------
  // The list transforms
  // ---------------------------------------------------------------------------

  /** The ids of the chats of a list. */
  function Ids(chats: seq<Chat>): set<string> {
    set c | c in chats :: c.id
  }

  /** `chats.map(chat => chat.id === id ? { ...chat, ...updates } : chat)`. */
  function UpdateById(chats: seq<Chat>, id: string, u: ChatUpdate): (r: seq<Chat>)
    ensures |r| == |chats|
    ensures forall i :: 0 <= i < |chats| ==>
      r[i] == if chats[i].id == id then Merge(chats[i], u) else chats[i]
  {
    if chats == [] then []
    else [if chats[0].id == id then Merge(chats[0], u) else chats[0]] + UpdateById(chats[1..], id, u)
  }

  /** `chats.filter(chat => chat.id !== id)`. */
  function DeleteById(chats: seq<Chat>, id: string): (r: seq<Chat>)
    ensures |r| <= |chats|
    ensures forall c :: c in r <==> c in chats && c.id != id
  {
    if chats == [] then []
    else if chats[0].id == id then DeleteById(chats[1..], id)
    else [chats[0]] + DeleteById(chats[1..], id)
  }

  /** What loading from the browser's storage leaves: `saved` is the stored text (None
      when nothing is stored or there is no browser), `parse` is `JSON.parse` (None
      when it throws). Nothing stored, an empty text or a failed parse keep `current`. */
  function Loaded(current: seq<Chat>, saved: Option<string>, parse: string -> Option<seq<Chat>>): (r: seq<Chat>)
    ensures saved.Some? && saved.value != "" && parse(saved.value).Some? ==> r == parse(saved.value).value
    ensures saved.None? || saved.value == "" || parse(saved.value).None? ==> r == current
  {
    if saved.Some? && saved.value != "" then
      match parse(saved.value)
      case Some(parsed) => parsed
      case None => current
    else current
  }

  // ---------------------------------------------------------------------------
  // What the transforms promise
  // ---------------------------------------------------------------------------

  /** Updating an id no chat has changes nothing. */
  lemma UpdateUnknownIdUnchanged(chats: seq<Chat>, id: string, u: ChatUpdate)
    requires id !in Ids(chats)
    ensures UpdateById(chats, id, u) == chats
  {
    assert forall i :: 0 <= i < |chats| ==> chats[i] in chats;
  }

  /** Deleting an id no chat has changes nothing. */
  lemma {:induction false} DeleteUnknownIdUnchanged(chats: seq<Chat>, id: string)
    requires id !in Ids(chats)
    ensures DeleteById(chats, id) == chats
  {
    if chats != [] {
      assert chats[0] in chats;
      assert Ids(chats[1..]) <= Ids(chats) by {
        forall c | c in chats[1..] ensures c in chats { }
      }
      DeleteUnknownIdUnchanged(chats[1..], id);
      assert [chats[0]] + chats[1..] == chats;
    }
  }

  /** Deleting from two lists joined is deleting from each and joining: the survivors
      keep their relative order. */
  lemma {:induction false} DeleteDistributes(a: seq<Chat>, b: seq<Chat>, id: string)
    ensures DeleteById(a + b, id) == DeleteById(a, id) + DeleteById(b, id)
  {
    if a != [] {
      assert (a + b)[1..] == a[1..] + b;
      DeleteDistributes(a[1..], b, id);
    } else {
      assert a + b == b;
    }
  }

  /** No chat with the id survives a delete. */
  lemma NoSurvivorHasId(chats: seq<Chat>, id: string)
    ensures id !in Ids(DeleteById(chats, id))
  {
  }

  /** Deleting twice is deleting once. */
  lemma DeleteIdempotent(chats: seq<Chat>, id: string)
    ensures DeleteById(DeleteById(chats, id), id) == DeleteById(chats, id)
  {
    NoSurvivorHasId(chats, id);
    DeleteUnknownIdUnchanged(DeleteById(chats, id), id);
  }

  /** Deleting the id of a chat just added removes it again, with any older chat of
      that id. */
  lemma DeleteAfterAdd(chats: seq<Chat>, c: Chat)
    ensures DeleteById([c] + chats, c.id) == DeleteById(chats, c.id)
  {
    assert ([c] + chats)[1..] == chats;
  }

  /** Deleting after an update that keeps the id is deleting without the update. */
  lemma {:induction false} DeleteAfterUpdate(chats: seq<Chat>, id: string, u: ChatUpdate)
    requires u.id.None? || u.id == Some(id)
    ensures DeleteById(UpdateById(chats, id, u), id) == DeleteById(chats, id)
  {
    if chats != [] {
      var r := UpdateById(chats, id, u);
      assert r == [r[0]] + UpdateById(chats[1..], id, u);
      assert r[0].id == id <==> chats[0].id == id;
      assert r[0].id != id ==> r[0] == chats[0];
      DeleteAfterUpdate(chats[1..], id, u);
    }
  }

  /** Loading twice from the same storage is loading once. */
  lemma LoadIdempotent(current: seq<Chat>, saved: Option<string>, parse: string -> Option<seq<Chat>>)
    ensures Loaded(Loaded(current, saved, parse), saved, parse) == Loaded(current, saved, parse)
  {
  }

  // ---------------------------------------------------------------------------
  // The store
  // ---------------------------------------------------------------------------

  /** The `chats` store returned by `createChatStore`. */
  class ChatStore {
    var chats: seq<Chat>

    /** The store starts from what the browser saved, or from the empty list. */
    constructor (saved: Option<string>, parse: string -> Option<seq<Chat>>)
      ensures chats == Loaded([], saved, parse)
    {
      chats := Loaded([], saved, parse);
    }

    /** `addChat`: the new chat goes first and the old ones follow in order. */
    method AddChat(c: Chat)
      modifies this
      ensures chats == [c] + old(chats)
      ensures |chats| == |old(chats)| + 1 && chats[1..] == old(chats)
    {
      chats := [c] + chats;
    }

    /** `updateChat`: every chat with the id is merged with the update, the rest stay. */
    method UpdateChat(id: string, u: ChatUpdate)
      modifies this
      ensures chats == UpdateById(old(chats), id, u)
    {
      chats := UpdateById(chats, id, u);
    }

    /** `deleteChat`: every chat with the id goes, the rest keep their order. */
    method DeleteChat(id: string)
      modifies this
      ensures chats == DeleteById(old(chats), id)
    {
      chats := DeleteById(chats, id);
    }

    /** `clearChats`. */
    method ClearChats()
      modifies this
      ensures chats == []
    {
      chats := [];
    }

    /** `loadFromLocalStorage`. */
    method LoadFromLocalStorage(saved: Option<string>, parse: string -> Option<seq<Chat>>)
      modifies this
      ensures chats == Loaded(old(chats), saved, parse)
    {
      chats := Loaded(chats, saved, parse);
    }
  }
}
