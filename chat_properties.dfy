/** What the chat manager guarantees across its steps: when compaction
    fires, what it keeps and stores, how long a session can get at rest,
    what the completion engine sees, what a failure leaves behind, and that
    a new chat can be read back through the id it was given. */
module ChatProperties {
  import opened Outcomes
  import opened Text
  import opened ObjectIds
  import opened Db
  import opened ChatService

  /** The call names an existing session and comes from its owner. */
  predicate OwnedCall(chats: Chats, chatId: string, user: string) {
    Parse(chatId).Some? && Parse(chatId).value in chats && chats[Parse(chatId).value].owner == user
  }

  function Max(a: int, b: int): int {
    if a >= b then a else b
  }

  /** After a successful follow-up: without compaction (at most maxMessages
      stored) the turn is appended and the summary is untouched; with it,
      the turn follows the kept tail and the summary is replaced, by the
      summary of the evicted messages when there was no non-empty earlier
      summary, else by the summary of (earlier summary, new summary) in that
      order. */
  lemma FollowUpStores(cfg: Config, engine: Engine, chats: Chats, chatId: string, user: string, question: string)
    requires OwnedCall(chats, chatId, user)
    requires FollowUpSpec(cfg, engine, chats, chatId, user, question).result.Success?
    ensures
      var s := FollowUpSpec(cfg, engine, chats, chatId, user, question);
      var id := Parse(chatId).value;
      var chat := chats[id];
      var reply := s.result.value;
      && (|chat.messages| <= cfg.maxMessages ==>
            s.chats[id].messages == chat.messages + Turn(question, reply) && s.chats[id].summary == chat.summary)
      && (|chat.messages| > cfg.maxMessages ==>
            var p := SplitForCompaction(chat.messages, cfg.keepLast);
            var newSummary := SummarizeMessages(engine, p.evicted);
            && newSummary.Success?
            && s.chats[id].messages == p.kept + Turn(question, reply)
            && s.chats[id].summary == Some(
                 if HasSummary(chat) then SummarizeMessages(engine, MergeInput(chat.summary.value, newSummary.value)).value
                 else newSummary.value))
  {
    var id := Parse(chatId).value;
    var chat := chats[id];
    assert FollowUpSpec(cfg, engine, chats, chatId, user, question) == FollowUpOwned(cfg, engine, chats, id, question);
    var c := Compact(cfg, engine, chat);
    assert c.Success?;
    var stored := if c.value.Some? then SummaryReplaced(chats, id, c.value.value.summary, c.value.value.kept) else chats;
    var reply := Complete(engine, CompletionInput(chat, Working(chat, c.value), question), ReplySampling);
    assert reply.Success?;
    assert FollowUpSpec(cfg, engine, chats, chatId, user, question).chats == Appended(stored, id, question, reply.value);
    if |chat.messages| > cfg.maxMessages {
      var p := SplitForCompaction(chat.messages, cfg.keepLast);
      assert stored[id].messages == p.kept;
      assert CombinedSummary(engine, chat, p.evicted) == Success(c.value.value.summary);
    }
  }

  /** Every follow-up that gets past compaction, compacting or not, asks
      the engine once, over the loaded summary frame, the working messages
      and the question. If that call fails, what is stored is what the
      compaction stored (nothing when none was due): no partial turn. */
  lemma FollowUpAnswer(cfg: Config, engine: Engine, chats: Chats, chatId: string, user: string, question: string)
    requires OwnedCall(chats, chatId, user)
    requires Compact(cfg, engine, chats[Parse(chatId).value]).Success?
    ensures
      var s := FollowUpSpec(cfg, engine, chats, chatId, user, question);
      var id := Parse(chatId).value;
      var chat := chats[id];
      var c := Compact(cfg, engine, chat).value;
      && s.result == Complete(engine, CompletionInput(chat, Working(chat, c), question), ReplySampling)
      && (s.result.Failure? ==>
            s.chats == if c.Some? then SummaryReplaced(chats, id, c.value.summary, c.value.kept) else chats)
  {
  }

  /** No message is dropped without being summarised: the evicted prefix
      (empty when no compaction fired) followed by what is stored afterwards
      is exactly the old list followed by the new turn. */
  lemma FollowUpConserves(cfg: Config, engine: Engine, chats: Chats, chatId: string, user: string, question: string)
    requires OwnedCall(chats, chatId, user)
    requires FollowUpSpec(cfg, engine, chats, chatId, user, question).result.Success?
    ensures
      var s := FollowUpSpec(cfg, engine, chats, chatId, user, question);
      var id := Parse(chatId).value;
      var m := chats[id].messages;
      var evicted := if |m| > cfg.maxMessages then SplitForCompaction(m, cfg.keepLast).evicted else [];
      evicted + s.chats[id].messages == m + Turn(question, s.result.value)
  {
    FollowUpStores(cfg, engine, chats, chatId, user, question);
  }

  /** With keepLast >= 1, a successful follow-up leaves at most
      max(maxMessages, keepLast) + 2 messages, whatever was stored before. */
  lemma FollowUpRestBound(cfg: Config, engine: Engine, chats: Chats, chatId: string, user: string, question: string)
    requires cfg.keepLast >= 1
    requires OwnedCall(chats, chatId, user)
    requires FollowUpSpec(cfg, engine, chats, chatId, user, question).result.Success?
    ensures
      var s := FollowUpSpec(cfg, engine, chats, chatId, user, question);
      |s.chats[Parse(chatId).value].messages| <= Max(cfg.maxMessages, cfg.keepLast) + 2
  {
    FollowUpStores(cfg, engine, chats, chatId, user, question);
  }

  /** The bound is reached: a session holding exactly maxMessages messages
      is not compacted and rests at maxMessages + 2 after the follow-up, so
      at rest the list can exceed maxMessages. */
  lemma RestBoundReached(cfg: Config, engine: Engine, chats: Chats, chatId: string, user: string, question: string)
    requires OwnedCall(chats, chatId, user)
    requires |chats[Parse(chatId).value].messages| == cfg.maxMessages
    requires engine(CompletionInput(chats[Parse(chatId).value], chats[Parse(chatId).value].messages, question),
                    ReplySampling).Content?
    ensures
      var s := FollowUpSpec(cfg, engine, chats, chatId, user, question);
      s.result.Success? && |s.chats[Parse(chatId).value].messages| == cfg.maxMessages + 2
  {
  }

  /** With keepLast == 0 compaction evicts nothing, so the stored list grows
      by a turn on every successful follow-up. */
  lemma KeepNoneNeverShrinks(cfg: Config, engine: Engine, chats: Chats, chatId: string, user: string, question: string)
    requires cfg.keepLast == 0
    requires OwnedCall(chats, chatId, user)
    requires FollowUpSpec(cfg, engine, chats, chatId, user, question).result.Success?
    ensures
      var s := FollowUpSpec(cfg, engine, chats, chatId, user, question);
      var id := Parse(chatId).value;
      s.chats[id].messages == chats[id].messages + Turn(question, s.result.value)
  {
    FollowUpStores(cfg, engine, chats, chatId, user, question);
  }

  /** Every session holds at most max(maxMessages, keepLast) + 2 messages. */
  ghost predicate Bounded(cfg: Config, chats: Chats) {
    forall k :: k in chats ==> |chats[k].messages| <= Max(cfg.maxMessages, cfg.keepLast) + 2
  }

  /** Follow-ups keep every session within the bound, whatever their outcome. */
  lemma FollowUpKeepsBound(cfg: Config, engine: Engine, chats: Chats, chatId: string, user: string, question: string)
    requires cfg.keepLast >= 1
    requires Bounded(cfg, chats)
    ensures Bounded(cfg, FollowUpSpec(cfg, engine, chats, chatId, user, question).chats)
  {
  }

  /** Starting a chat keeps every session within the bound. */
  lemma StartKeepsBound(cfg: Config, chats: Chats, notes: seq<NoteDoc>, engine: Engine, user: string,
                        noteIds: seq<string>, question: string, now: int, newId: ObjectId)
    requires cfg.keepLast >= 1
    requires Bounded(cfg, chats)
    ensures Bounded(cfg, StartSpec(chats, notes, engine, user, noteIds, question, now, newId).chats)
  {
  }

  /** The engine answers a compacting follow-up from the summary read when
      the session was loaded, not from the one just stored: with no earlier
      summary it sees only the kept tail and the question, so the evicted
      messages reach it neither verbatim nor summarised. */
  lemma CompletionUsesLoadedSummary(cfg: Config, engine: Engine, chats: Chats, chatId: string, user: string, question: string)
    requires OwnedCall(chats, chatId, user)
    requires Compact(cfg, engine, chats[Parse(chatId).value]).Success?
    requires |chats[Parse(chatId).value].messages| > cfg.maxMessages
    ensures
      var chat := chats[Parse(chatId).value];
      var kept := SplitForCompaction(chat.messages, cfg.keepLast).kept;
      var input := if HasSummary(chat)
        then [Message(User, SummaryFramingLead + chat.summary.value)] + kept + [Message(User, question)]
        else kept + [Message(User, question)];
      FollowUpSpec(cfg, engine, chats, chatId, user, question).result == Complete(engine, input, ReplySampling)
  {
    var id := Parse(chatId).value;
    var chat := chats[id];
    assert FollowUpSpec(cfg, engine, chats, chatId, user, question) == FollowUpOwned(cfg, engine, chats, id, question);
    var c := Compact(cfg, engine, chat).value;
    assert Working(chat, c) == SplitForCompaction(chat.messages, cfg.keepLast).kept;
  }

  /** A compaction is stored before the reply is asked for, so when the
      reply then fails the session stays compacted without the new turn. */
  lemma ReplyFailureKeepsCompaction(cfg: Config, engine: Engine, chats: Chats, chatId: string, user: string, question: string)
    requires OwnedCall(chats, chatId, user)
    requires Compact(cfg, engine, chats[Parse(chatId).value]).Success?
    requires |chats[Parse(chatId).value].messages| > cfg.maxMessages
    requires FollowUpSpec(cfg, engine, chats, chatId, user, question).result.Failure?
    ensures
      var id := Parse(chatId).value;
      var c := Compact(cfg, engine, chats[id]).value.value;
      FollowUpSpec(cfg, engine, chats, chatId, user, question)
        == Step(SummaryReplaced(chats, id, c.summary, c.kept), Failure(CompletionUnavailable))
  {
  }

  /** A failed summary call fails the follow-up and stores nothing. */
  lemma SummaryFailureChangesNothing(cfg: Config, engine: Engine, chats: Chats, chatId: string, user: string, question: string)
    requires OwnedCall(chats, chatId, user)
    requires Compact(cfg, engine, chats[Parse(chatId).value]).Failure?
    ensures FollowUpSpec(cfg, engine, chats, chatId, user, question) == Step(chats, Failure(CompletionUnavailable))
  {
  }

  /** Reading a new chat back through the id it was given returns exactly
      its first turn, with the note ids and creation time it was started
      with. */
  lemma StartThenHistory(chats: Chats, notes: seq<NoteDoc>, engine: Engine, user: string,
                         noteIds: seq<string>, question: string, now: int, newId: ObjectId)
    requires StartSpec(chats, notes, engine, user, noteIds, question, now, newId).result.Success?
    ensures
      var s := StartSpec(chats, notes, engine, user, noteIds, question, now, newId);
      var started := s.result.value;
      History(s.chats, started.chatId, user)
        == Success(ChatView(started.chatId, noteIds, now, Turn(question, started.reply)))
  {
    ParseToText(newId);
  }

  /** The first follow-up on a new chat (with room for four messages)
      answers from the first turn and the new question, and stores both
      turns in order. */
  lemma StartThenFollowUp(cfg: Config, chats: Chats, notes: seq<NoteDoc>, engine: Engine, user: string,
                          noteIds: seq<string>, question: string, now: int, newId: ObjectId, next: string)
    requires cfg.maxMessages >= 2
    requires StartSpec(chats, notes, engine, user, noteIds, question, now, newId).result.Success?
    ensures
      var s := StartSpec(chats, notes, engine, user, noteIds, question, now, newId);
      var first := Turn(question, s.result.value.reply);
      var f := FollowUpSpec(cfg, engine, s.chats, s.result.value.chatId, user, next);
      && f.result == Complete(engine, first + [Message(User, next)], ReplySampling)
      && (f.result.Success? ==> f.chats[newId].messages == first + Turn(next, f.result.value))
  {
    var s := StartSpec(chats, notes, engine, user, noteIds, question, now, newId);
    ParseToText(newId);
    var chat := s.chats[newId];
    assert FollowUpSpec(cfg, engine, s.chats, s.result.value.chatId, user, next)
        == FollowUpOwned(cfg, engine, s.chats, newId, next);
    assert Compact(cfg, engine, chat) == Success(None);
    assert !HasSummary(chat);
  }

  /** With no newline in any note, the notes message lists each note on a
      line of its own, in the order the store returned them. */
  lemma NotesMessageLines(notes: seq<string>)
    requires |notes| >= 1
    requires forall i :: 0 <= i < |notes| ==> '\n' !in notes[i]
    ensures Split('\n', NotesMessage(notes).content[|NotesLead|..]) == Bullets(notes)
  {
    var bullets := Bullets(notes);
    forall i | 0 <= i < |bullets| ensures '\n' !in bullets[i] {
      assert bullets[i] == "- " + notes[i];
    }
    assert NotesMessage(notes).content[|NotesLead|..] == Join('\n', bullets);
    SplitJoin('\n', bullets);
  }

  /** A message without a newline makes a transcript line without one. */
  lemma TranscriptLineOneLine(m: Message)
    requires '\n' !in m.content
    ensures '\n' !in RoleName(m.role) + ": " + m.content
  {
    var line := RoleName(m.role) + ": " + m.content;
    forall j | 0 <= j < |line| ensures line[j] != '\n' {
      if j >= |line| - |m.content| {
        assert line[j] == m.content[j - (|line| - |m.content|)];
      }
    }
  }

  /** With no newline in any message, the summariser's request lists each
      message as one "role: content" line, in conversation order. */
  lemma SummaryPromptLines(messages: seq<Message>)
    requires |messages| >= 1
    requires forall i :: 0 <= i < |messages| ==> '\n' !in messages[i].content
    ensures
      var request := SummaryPrompt(messages)[1].content;
      Split('\n', request[|SummarizeLead|..]) == TranscriptLines(messages)
  {
    var lines := TranscriptLines(messages);
    forall i | 0 <= i < |lines| ensures '\n' !in lines[i] {
      TranscriptLineOneLine(messages[i]);
    }
    assert SummaryPrompt(messages)[1].content[|SummarizeLead|..] == Join('\n', lines);
    SplitJoin('\n', lines);
  }
}
