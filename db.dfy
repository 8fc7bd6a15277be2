/** The document store of the chat core: the `chats` collection, which the
    chat operations insert into and update in place, and the `notes_with_tags`
    collection, which they only read. Each store operation is one update of
    one record, so each is one map update here. */
module Db {
  import opened Outcomes
  import opened ObjectIds

  datatype Role = System | User | Assistant

  datatype Message = Message(role: Role, content: string)

  /** One chat session record. `summary` is absent until the first
      compaction stores one. */
  datatype Chat = Chat(
    owner: string,
    createdAt: int,
    noteIds: seq<string>,
    messages: seq<Message>,
    summary: Option<string>)

  type Chats = map<ObjectId, Chat>

  /** A stored note; only its id and content matter to the chat core. */
  datatype NoteDoc = NoteDoc(id: ObjectId, content: string)

  /** The two messages of one turn: the user's question, then the reply. */
  function Turn(question: string, reply: string): seq<Message> {
    [Message(User, question), Message(Assistant, reply)]
  }

  /** The record `start_chat` inserts. */
  function NewChat(owner: string, createdAt: int, noteIds: seq<string>, question: string, reply: string): Chat {
    Chat(owner, createdAt, noteIds, Turn(question, reply), None)
  }

  /** `get_chat_by_id`: the record the text id names, `None` when there is
      none, an error when the text is not an ObjectId. */
  function ChatById(chats: Chats, chatId: string): (r: Result<Option<Chat>>)
    ensures r.Failure? <==> Parse(chatId).None?
    ensures r.Failure? ==> r.error == InvalidId
    ensures r.Success? ==> (r.value.Some? <==> Parse(chatId).value in chats)
    ensures r.Success? && r.value.Some? ==> r.value.value == chats[Parse(chatId).value]
  {
    match Parse(chatId)
    case None => Failure(InvalidId)
    case Some(id) => Success(if id in chats then Some(chats[id]) else None)
  }

  /** Every text id parsed, or `None` as soon as one is not an ObjectId. */
  function ParseAll(texts: seq<string>): (r: Option<seq<ObjectId>>)
    ensures r.Some? <==> forall i :: 0 <= i < |texts| ==> Parse(texts[i]).Some?
    ensures r.Some? ==> |r.value| == |texts|
    ensures r.Some? ==> forall i :: 0 <= i < |texts| ==> Parse(texts[i]) == Some(r.value[i])
  {
    if texts == [] then Some([])
    else
      match (Parse(texts[0]), ParseAll(texts[1..]))
      case (Some(id), Some(ids)) => Some([id] + ids)
      case _ => None
  }

  /** The distinct ids of a list; no more of them than the list is long. */
  function IdSet(ids: seq<ObjectId>): (r: set<ObjectId>)
    ensures forall x :: x in r <==> x in ids
    ensures |r| <= |ids|
  {
    if ids == [] then {} else {ids[0]} + IdSet(ids[1..])
  }

  /** The notes of the collection whose id is wanted, in collection order. */
  function Matching(notes: seq<NoteDoc>, wanted: set<ObjectId>): (r: seq<NoteDoc>)
    ensures forall n :: n in r <==> n in notes && n.id in wanted
    ensures |r| <= |notes|
  {
    if notes == [] then []
    else (if notes[0].id in wanted then [notes[0]] else []) + Matching(notes[1..], wanted)
  }

  function Contents(notes: seq<NoteDoc>): (r: seq<string>)
    ensures |r| == |notes|
  {
    seq(|notes|, i requires 0 <= i < |notes| => notes[i].content)
  }

  /** `get_notes_by_ids`: the contents of the stored notes whose id is
      requested, in collection order; ids with no note are skipped, and a
      text that is not an ObjectId fails the whole lookup. */
  function NotesByIds(notes: seq<NoteDoc>, noteIds: seq<string>): (r: Result<seq<string>>)
    ensures r.Failure? <==> exists i :: 0 <= i < |noteIds| && Parse(noteIds[i]).None?
    ensures r.Failure? ==> r.error == InvalidId
  {
    match ParseAll(noteIds)
    case None => Failure(InvalidId)
    case Some(ids) => Success(Contents(Matching(notes, IdSet(ids))))
  }

  /** Every content `get_notes_by_ids` returns is that of a stored note
      whose id was requested. */
  lemma NotesByIdsSound(notes: seq<NoteDoc>, noteIds: seq<string>, c: string)
    requires NotesByIds(notes, noteIds).Success? && c in NotesByIds(notes, noteIds).value
    ensures exists n, i :: n in notes && 0 <= i < |noteIds| && Parse(noteIds[i]) == Some(n.id) && n.content == c
  {
    var ids := ParseAll(noteIds).value;
    var m := Matching(notes, IdSet(ids));
    var found := Contents(m);
    var k :| 0 <= k < |found| && found[k] == c;
    assert m[k] in m;
    var i :| 0 <= i < |ids| && ids[i] == m[k].id;
    assert Parse(noteIds[i]) == Some(m[k].id);
  }

  /** Every stored note whose id was requested has its content returned. */
  lemma NotesByIdsComplete(notes: seq<NoteDoc>, noteIds: seq<string>, n: NoteDoc, i: int)
    requires NotesByIds(notes, noteIds).Success?
    requires n in notes && 0 <= i < |noteIds| && Parse(noteIds[i]) == Some(n.id)
    ensures n.content in NotesByIds(notes, noteIds).value
  {
    var ids := ParseAll(noteIds).value;
    var m := Matching(notes, IdSet(ids));
    var found := Contents(m);
    assert ids[i] == n.id;
    assert n in m;
    var k :| 0 <= k < |m| && m[k] == n;
    assert found[k] == n.content;
  }

  /** Every content `get_notes_by_ids` returns is that of a stored note
      whose id was requested, and every stored note whose id was requested
      is returned. */
  lemma NotesByIdsMembers(notes: seq<NoteDoc>, noteIds: seq<string>)
    requires NotesByIds(notes, noteIds).Success?
    ensures var found := NotesByIds(notes, noteIds).value;
      forall c :: c in found <==>
        exists n, i :: n in notes && 0 <= i < |noteIds| && Parse(noteIds[i]) == Some(n.id) && n.content == c
  {
    var found := NotesByIds(notes, noteIds).value;
    forall c | c in found
      ensures exists n, i :: n in notes && 0 <= i < |noteIds| && Parse(noteIds[i]) == Some(n.id) && n.content == c
    {
      NotesByIdsSound(notes, noteIds, c);
    }
    forall n, i | n in notes && 0 <= i < |noteIds| && Parse(noteIds[i]) == Some(n.id)
      ensures n.content in found
    {
      NotesByIdsComplete(notes, noteIds, n, i);
    }
  }

  lemma {:induction false} MatchingSkipsAbsentId(notes: seq<NoteDoc>, wanted: set<ObjectId>, x: ObjectId)
    requires forall k :: 0 <= k < |notes| ==> notes[k].id != x
    ensures Matching(notes, wanted) == Matching(notes, wanted - {x})
  {
    if notes != [] {
      MatchingSkipsAbsentId(notes[1..], wanted, x);
    }
  }

  /** With distinct note ids, no more notes match than ids are wanted. */
  lemma {:induction false} MatchingBound(notes: seq<NoteDoc>, wanted: set<ObjectId>)
    requires forall i, j :: 0 <= i < j < |notes| ==> notes[i].id != notes[j].id
    ensures |Matching(notes, wanted)| <= |wanted|
  {
    if notes != [] {
      var x := notes[0].id;
      var tail := notes[1..];
      forall k | 0 <= k < |tail| ensures tail[k].id != x {
        assert tail[k] == notes[k + 1];
      }
      MatchingSkipsAbsentId(tail, wanted, x);
      MatchingBound(tail, wanted - {x});
      if x in wanted {
        assert |wanted - {x}| == |wanted| - 1;
      } else {
        assert wanted - {x} == wanted;
      }
    }
  }

  /** `get_notes_by_ids` returns at most one content per distinct requested
      id, so never more than were requested. */
  lemma NotesByIdsBound(notes: seq<NoteDoc>, noteIds: seq<string>)
    requires forall i, j :: 0 <= i < j < |notes| ==> notes[i].id != notes[j].id
    requires NotesByIds(notes, noteIds).Success?
    ensures |NotesByIds(notes, noteIds).value| <= |IdSet(ParseAll(noteIds).value)| <= |noteIds|
  {
    MatchingBound(notes, IdSet(ParseAll(noteIds).value));
  }

  /** The record at `id` after `append_to_chat`: one more turn at the end of
      its messages. Nothing else changes, and a missing id changes nothing. */
  function Appended(chats: Chats, id: ObjectId, question: string, reply: string): (r: Chats)
    ensures r.Keys == chats.Keys
    ensures forall k :: k in chats && k != id ==> r[k] == chats[k]
    ensures id in chats ==>
      && r[id].messages == chats[id].messages + Turn(question, reply)
      && r[id].owner == chats[id].owner
      && r[id].createdAt == chats[id].createdAt
      && r[id].noteIds == chats[id].noteIds
      && r[id].summary == chats[id].summary
  {
    if id in chats then
      chats[id := chats[id].(messages := chats[id].messages + Turn(question, reply))]
    else
      chats
  }

  /** The record at `id` after `replace_summary`: summary and messages are
      overwritten together. Nothing else changes, and a missing id changes
      nothing. */
  function SummaryReplaced(chats: Chats, id: ObjectId, summary: string, messages: seq<Message>): (r: Chats)
    ensures r.Keys == chats.Keys
    ensures forall k :: k in chats && k != id ==> r[k] == chats[k]
    ensures id in chats ==>
      && r[id].summary == Some(summary)
      && r[id].messages == messages
      && r[id].owner == chats[id].owner
      && r[id].createdAt == chats[id].createdAt
      && r[id].noteIds == chats[id].noteIds
  {
    if id in chats then chats[id := chats[id].(summary := Some(summary), messages := messages)] else chats
  }

  /** The two collections. `notes` is the notes collection in the order the
      store enumerates it (no two notes share an id, as `_id` is unique);
      the chat operations only read it. */
  class Database {
    var chats: Chats
    var notes: seq<NoteDoc>

    /** `start_chat`: inserts a session holding exactly the first turn under
        the id the driver generated, and returns that id as text. An id that
        is already taken is refused and nothing is inserted. */
    method StartChat(owner: string, noteIds: seq<string>, question: string, reply: string, now: int, newId: ObjectId)
      returns (r: Result<string>)
      modifies this`chats
      ensures newId in old(chats) ==> r == Failure(DuplicateKey) && chats == old(chats)
      ensures newId !in old(chats) ==>
        && r == Success(ToText(newId))
        && chats == old(chats)[newId := NewChat(owner, now, noteIds, question, reply)]
    {
      if newId in chats {
        return Failure(DuplicateKey);
      }
      chats := chats[newId := NewChat(owner, now, noteIds, question, reply)];
      r := Success(ToText(newId));
    }

    /** `append_to_chat`: pushes the question and the reply onto the stored
        messages; an id with no record matches nothing and changes nothing. */
    method AppendToChat(chatId: string, question: string, reply: string) returns (r: Result<()>)
      modifies this`chats
      ensures Parse(chatId).None? ==> r == Failure(InvalidId) && chats == old(chats)
      ensures Parse(chatId).Some? ==>
        r == Success(()) && chats == Appended(old(chats), Parse(chatId).value, question, reply)
    {
      var id := Parse(chatId);
      if id.None? {
        return Failure(InvalidId);
      }
      chats := Appended(chats, id.value, question, reply);
      r := Success(());
    }

    /** `replace_summary`: sets summary and messages in one update. */
    method ReplaceSummary(chatId: string, summary: string, messages: seq<Message>) returns (r: Result<()>)
      modifies this`chats
      ensures Parse(chatId).None? ==> r == Failure(InvalidId) && chats == old(chats)
      ensures Parse(chatId).Some? ==>
        r == Success(()) && chats == SummaryReplaced(old(chats), Parse(chatId).value, summary, messages)
    {
      var id := Parse(chatId);
      if id.None? {
        return Failure(InvalidId);
      }
      chats := SummaryReplaced(chats, id.value, summary, messages);
      r := Success(());
    }
  }
}
