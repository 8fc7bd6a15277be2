/** The bounded-context chat manager: starting a chat over a set of notes,
    answering follow-ups (compacting the stored history into a summary once
    it grows past a threshold), and reading a chat's history. Each handler is
    a method over the store; its contract ties the new store and the result
    to a specification function over the store's chats. The completion
    engine is a parameter whose answers are opaque. */
module ChatService {
  import opened Outcomes
  import opened Text
  import opened ObjectIds
  import opened Db

  // The fixed texts the handlers put into prompts (typos included).
  const JournalingPrompt := "You are a reflective journaling assistant."
  const NoNotesLead := "I dont't have any notes, but here's my question:\n"
  const NotesLead := "Here are my notes: \n"
  const SummarizerPrompt := "You are an assistant that summarizes reflective journal conversations."
  const SummarizeLead := "Summarize this conversation briefly:\n\n"
  const EarlierSummaryLead := "Earlier summary:\n"
  const NewContextLead := "New context:\n"
  const SummaryFramingLead := "Here's a summary of our earlier conversastion:\n"

  /** Sampling settings passed along with a prompt. */
  datatype Sampling = Sampling(temperature: real, maxTokens: nat)
  const ReplySampling := Sampling(0.7, 800)
  const SummarySampling := Sampling(0.3, 300)

  /** What the completion engine answers: the content of its first choice,
      or a failure of any kind. */
  datatype Completion = Unavailable | Content(text: string)
  type Engine = (seq<Message>, Sampling) -> Completion

  /** MAX_MESSAGES and TRIM_KEEP_LAST, as read from the environment. */
  datatype Config = Config(maxMessages: int, keepLast: int)

  /** One completion call; the reply is the content with `strip()` applied. */
  function Complete(engine: Engine, prompt: seq<Message>, sampling: Sampling): (r: Result<string>)
    ensures r.Failure? <==> engine(prompt, sampling).Unavailable?
    ensures r.Failure? ==> r.error == CompletionUnavailable
    ensures r.Success? ==> r.value == Strip(engine(prompt, sampling).text)
  {
    match engine(prompt, sampling)
    case Unavailable => Failure(CompletionUnavailable)
    case Content(text) => Success(Strip(text))
  }

  // ---------------------------------------------------------------------
  // Starting a chat

  function Bullets(notes: seq<string>): (r: seq<string>)
    ensures |r| == |notes|
    ensures forall i :: 0 <= i < |notes| ==> r[i] == "- " + notes[i]
  {
    seq(|notes|, i requires 0 <= i < |notes| => "- " + notes[i])
  }

  /** The message that hands the notes over, one "- " line per note. */
  function NotesMessage(notes: seq<string>): (m: Message)
    ensures m.role == User
    ensures |NotesLead| <= |m.content| && m.content[..|NotesLead|] == NotesLead
    ensures m.content[|NotesLead|..] == Join('\n', Bullets(notes))
  {
    Message(User, NotesLead + Join('\n', Bullets(notes)))
  }

  /** The prompt of a new chat: the system message, then the "no notes"
      message carrying the question when no note ids were given (`None`),
      or else the notes message followed by the bare question. */
  function StartPrompt(notes: Option<seq<string>>, question: string): (p: seq<Message>)
    ensures |p| >= 2 && p[0] == Message(System, JournalingPrompt)
    ensures forall i :: 1 <= i < |p| ==> p[i].role == User
    ensures notes.None? ==> |p| == 2 && p[1].content == NoNotesLead + question
    ensures notes.Some? ==> |p| == 3 && p[1] == NotesMessage(notes.value) && p[2].content == question
  {
    [Message(System, JournalingPrompt)]
    + if notes.None? then [Message(User, NoNotesLead + question)]
      else [NotesMessage(notes.value), Message(User, question)]
  }

  /** The notes a new chat is grounded in: none looked up for an empty id
      list, otherwise whatever `get_notes_by_ids` finds. */
  function FetchNotes(notes: seq<NoteDoc>, noteIds: seq<string>): (r: Result<Option<seq<string>>>)
    ensures noteIds == [] ==> r == Success(None)
    ensures noteIds != [] ==> r.Success? == NotesByIds(notes, noteIds).Success?
    ensures noteIds != [] && r.Success? ==> r.value == Some(NotesByIds(notes, noteIds).value)
  {
    if noteIds == [] then Success(None)
    else
      match NotesByIds(notes, noteIds)
      case Failure(e) => Failure(e)
      case Success(found) => Success(Some(found))
  }

  /** The outcome of an operation: the chats afterwards, and its result. */
  datatype Step<T> = Step(chats: Chats, result: Result<T>)

  datatype Started = Started(chatId: string, reply: string)

  /** `chat_with_notes`: one completion over the start prompt, then one new
      session holding the question and the reply. Any failure inserts
      nothing. */
  function StartSpec(chats: Chats, notes: seq<NoteDoc>, engine: Engine, user: string,
                     noteIds: seq<string>, question: string, now: int, newId: ObjectId): (s: Step<Started>)
    ensures s.result.Failure? ==> s.chats == chats
    ensures s.result.Success? ==>
      && newId !in chats
      && s.chats.Keys == chats.Keys + {newId}
      && (forall k :: k in chats ==> s.chats[k] == chats[k])
      && s.chats[newId].owner == user
      && s.chats[newId].noteIds == noteIds
      && s.chats[newId].createdAt == now
      && s.chats[newId].messages == Turn(question, s.result.value.reply)
      && s.chats[newId].summary == None
      && s.result.value.chatId == ToText(newId)
    ensures s.result.Success? <==>
      && FetchNotes(notes, noteIds).Success?
      && engine(StartPrompt(FetchNotes(notes, noteIds).value, question), ReplySampling).Content?
      && newId !in chats
    ensures s.result.Success? ==>
      && FetchNotes(notes, noteIds).Success?
      && s.result.value.reply
         == Strip(engine(StartPrompt(FetchNotes(notes, noteIds).value, question), ReplySampling).text)
  {
    match FetchNotes(notes, noteIds)
    case Failure(e) => Step(chats, Failure(e))
    case Success(found) =>
      match Complete(engine, StartPrompt(found, question), ReplySampling)
      case Failure(e) => Step(chats, Failure(e))
      case Success(reply) =>
        assert reply == Strip(engine(StartPrompt(found, question), ReplySampling).text);
        if newId in chats then Step(chats, Failure(DuplicateKey))
        else Step(chats[newId := NewChat(user, now, noteIds, question, reply)], Success(Started(ToText(newId), reply)))
  }

  /** The `chat_with_notes` handler; `now` is the clock reading and `newId`
      the id the store's driver generates for the insert. */
  method ChatWithNotes(db: Database, engine: Engine, user: string, noteIds: seq<string>, question: string,
                       now: int, newId: ObjectId) returns (r: Result<Started>)
    modifies db`chats
    ensures Step(db.chats, r) == StartSpec(old(db.chats), db.notes, engine, user, noteIds, question, now, newId)
  {
    var messages := [Message(System, JournalingPrompt)];
    if noteIds == [] {
      messages := messages + [Message(User, NoNotesLead + question)];
    } else {
      var found := NotesByIds(db.notes, noteIds);
      if found.Failure? {
        return Failure(found.error);
      }
      var notesText := Join('\n', Bullets(found.value));
      messages := messages + [Message(User, NotesLead + notesText), Message(User, question)];
    }
    assert FetchNotes(db.notes, noteIds).Success?;
    assert messages == StartPrompt(FetchNotes(db.notes, noteIds).value, question);
    var reply := Complete(engine, messages, ReplySampling);
    if reply.Failure? {
      return Failure(reply.error);
    }
    var chatId := db.StartChat(user, noteIds, question, reply.value, now, newId);
    if chatId.Failure? {
      return Failure(chatId.error);
    }
    r := Success(Started(chatId.value, reply.value));
  }

  // ---------------------------------------------------------------------
  // Summarising

  function RoleName(role: Role): string {
    match role
    case System => "system"
    case User => "user"
    case Assistant => "assistant"
  }

  /** One "role: content" line per message, in order. */
  function TranscriptLines(messages: seq<Message>): (r: seq<string>)
    ensures |r| == |messages|
    ensures forall i :: 0 <= i < |messages| ==> r[i] == RoleName(messages[i].role) + ": " + messages[i].content
  {
    seq(|messages|, i requires 0 <= i < |messages| => RoleName(messages[i].role) + ": " + messages[i].content)
  }

  /** The prompt `summarize_messages` sends: the summariser's system
      message, then a request holding the transcript. */
  function SummaryPrompt(messages: seq<Message>): (p: seq<Message>)
    ensures |p| == 2 && p[0] == Message(System, SummarizerPrompt) && p[1].role == User
    ensures |SummarizeLead| <= |p[1].content| && p[1].content[..|SummarizeLead|] == SummarizeLead
    ensures p[1].content[|SummarizeLead|..] == Join('\n', TranscriptLines(messages))
  {
    [Message(System, SummarizerPrompt), Message(User, SummarizeLead + Join('\n', TranscriptLines(messages)))]
  }

  /** `summarize_messages`: one completion call over the summary prompt. */
  function SummarizeMessages(engine: Engine, messages: seq<Message>): (r: Result<string>)
    ensures r.Success? <==> engine(SummaryPrompt(messages), SummarySampling).Content?
    ensures r.Success? ==> r.value == Strip(engine(SummaryPrompt(messages), SummarySampling).text)
  {
    Complete(engine, SummaryPrompt(messages), SummarySampling)
  }

  // ---------------------------------------------------------------------
  // Following up

  /** A Python slice bound `i` normalised against a length `n`: a negative
      bound counts from the end, and both are clamped to [0, n]. */
  function SliceBound(n: nat, i: int): (b: nat)
    ensures b <= n
    ensures 0 <= i <= n ==> b == i
    ensures i < 0 && 0 <= n + i ==> b == n + i
    ensures i > n ==> b == n
    ensures i + n < 0 ==> b == 0
  {
    if i < 0 then (if i + n < 0 then 0 else i + n)
    else if i > n then n
    else i
  }

  function Min(a: int, b: int): int {
    if a <= b then a else b
  }

  datatype Partition = Partition(evicted: seq<Message>, kept: seq<Message>)

  /** `messages[:-keepLast]` and `messages[-keepLast:]`, with Python's
      slicing rules. The two parts always make up the whole list in order;
      for 1 <= keepLast the kept part is the last keepLast messages (all of
      them when there are fewer); for keepLast == 0 nothing is evicted. */
  function SplitForCompaction(messages: seq<Message>, keepLast: int): (p: Partition)
    ensures p.evicted + p.kept == messages
    ensures 0 < keepLast <= |messages| ==> p.kept == messages[|messages| - keepLast..]
    ensures 0 < keepLast && |messages| <= keepLast ==> p.evicted == [] && p.kept == messages
    ensures keepLast <= 0 ==> p.evicted == messages[..Min(-keepLast, |messages|)]
  {
    var b := SliceBound(|messages|, -keepLast);
    Partition(messages[..b], messages[b..])
  }

  /** `"summary" in chat and chat["summary"]`: a stored, non-empty summary. */
  predicate HasSummary(chat: Chat) {
    chat.summary.Some? && chat.summary.value != ""
  }

  /** The pair of messages that folds an earlier summary into a new one. */
  function MergeInput(earlier: string, newer: string): (r: seq<Message>)
    ensures |r| == 2 && r[0].role == User && r[1].role == User
    ensures |EarlierSummaryLead| <= |r[0].content|
      && r[0].content[..|EarlierSummaryLead|] == EarlierSummaryLead
      && r[0].content[|EarlierSummaryLead|..] == earlier
    ensures |NewContextLead| <= |r[1].content|
      && r[1].content[..|NewContextLead|] == NewContextLead
      && r[1].content[|NewContextLead|..] == newer
  {
    [Message(User, EarlierSummaryLead + earlier), Message(User, NewContextLead + newer)]
  }

  /** The summary a compaction stores: the evicted messages summarised,
      then summarised again together with the earlier summary when the chat
      has a non-empty one. */
  function CombinedSummary(engine: Engine, chat: Chat, evicted: seq<Message>): (r: Result<string>)
    ensures SummarizeMessages(engine, evicted).Failure? ==> r.Failure?
    ensures !HasSummary(chat) ==> r == SummarizeMessages(engine, evicted)
    ensures HasSummary(chat) && SummarizeMessages(engine, evicted).Success? ==>
      r == SummarizeMessages(engine, MergeInput(chat.summary.value, SummarizeMessages(engine, evicted).value))
  {
    match SummarizeMessages(engine, evicted)
    case Failure(e) => Failure(e)
    case Success(newSummary) =>
      if HasSummary(chat) then SummarizeMessages(engine, MergeInput(chat.summary.value, newSummary))
      else Success(newSummary)
  }

  datatype Compaction = Compaction(summary: string, kept: seq<Message>)

  /** The compaction a follow-up performs before the question is appended:
      none while at most maxMessages are stored; otherwise the summary of
      what is evicted and the messages kept, or a failed summary call. */
  function Compact(cfg: Config, engine: Engine, chat: Chat): (r: Result<Option<Compaction>>)
    ensures |chat.messages| <= cfg.maxMessages <==> r == Success(None)
    ensures r.Failure? <==>
      && |chat.messages| > cfg.maxMessages
      && CombinedSummary(engine, chat, SplitForCompaction(chat.messages, cfg.keepLast).evicted).Failure?
    ensures r.Success? && r.value.Some? ==>
      var p := SplitForCompaction(chat.messages, cfg.keepLast);
      && r.value.value.kept == p.kept
      && CombinedSummary(engine, chat, p.evicted) == Success(r.value.value.summary)
  {
    if |chat.messages| <= cfg.maxMessages then Success(None)
    else
      var p := SplitForCompaction(chat.messages, cfg.keepLast);
      match CombinedSummary(engine, chat, p.evicted)
      case Failure(e) => Failure(e)
      case Success(summary) => Success(Some(Compaction(summary, p.kept)))
  }

  /** What the completion engine sees on a follow-up: the summary read when
      the chat was loaded (only when non-empty), the working messages, and
      the new question last. */
  function CompletionInput(loaded: Chat, working: seq<Message>, question: string): (p: seq<Message>)
    ensures |p| >= 1 && p[|p| - 1] == Message(User, question)
    ensures HasSummary(loaded) ==>
      && |p| == |working| + 2
      && p[0] == Message(User, SummaryFramingLead + loaded.summary.value)
      && p[1..|p| - 1] == working
    ensures !HasSummary(loaded) ==> p[..|p| - 1] == working
  {
    (if HasSummary(loaded) then [Message(User, SummaryFramingLead + loaded.summary.value)] else [])
    + working + [Message(User, question)]
  }

  /** The messages a follow-up answers from and keeps: the kept tail when a
      compaction happened, the stored list otherwise. */
  function Working(chat: Chat, c: Option<Compaction>): seq<Message> {
    if c.Some? then c.value.kept else chat.messages
  }

  /** `follow_up`. Only the addressed session can change, and never its
      owner, note ids or creation time. Bad ids, missing sessions and
      foreign callers change nothing. */
  function FollowUpSpec(cfg: Config, engine: Engine, chats: Chats, chatId: string, user: string, question: string)
    : (s: Step<string>)
    ensures s.chats.Keys == chats.Keys
    ensures match Parse(chatId)
      case None => s == Step(chats, Failure(InvalidId))
      case Some(id) =>
        && (id !in chats ==> s == Step(chats, Failure(NotFound)))
        && (id in chats && chats[id].owner != user ==> s == Step(chats, Failure(Forbidden)))
        && (forall k :: k in chats && k != id ==> s.chats[k] == chats[k])
        && (id in chats ==>
              && s.chats[id].owner == chats[id].owner
              && s.chats[id].noteIds == chats[id].noteIds
              && s.chats[id].createdAt == chats[id].createdAt)
  {
    match Parse(chatId)
    case None => Step(chats, Failure(InvalidId))
    case Some(id) =>
      if id !in chats then Step(chats, Failure(NotFound))
      else if chats[id].owner != user then Step(chats, Failure(Forbidden))
      else FollowUpOwned(cfg, engine, chats, id, question)
  }

  /** A follow-up that passed the checks: compact if due, then answer. */
  function FollowUpOwned(cfg: Config, engine: Engine, chats: Chats, id: ObjectId, question: string): Step<string>
    requires id in chats
  {
    var chat := chats[id];
    match Compact(cfg, engine, chat)
    case Failure(e) => Step(chats, Failure(e))
    case Success(c) =>
      var stored := if c.Some? then SummaryReplaced(chats, id, c.value.summary, c.value.kept) else chats;
      match Complete(engine, CompletionInput(chat, Working(chat, c), question), ReplySampling)
      case Failure(e) => Step(stored, Failure(e))
      case Success(reply) => Step(Appended(stored, id, question, reply), Success(reply))
  }

  /** The compaction step of `follow_up`: when more than maxMessages are
      stored, summarise the evicted prefix (folding in an earlier non-empty
      summary) and store that summary together with the kept tail, in one
      update. A failed summary call stores nothing. */
  method CompactIfDue(db: Database, cfg: Config, engine: Engine, chatId: string, chat: Chat)
    returns (r: Result<Option<Compaction>>)
    requires Parse(chatId).Some? && Parse(chatId).value in db.chats
    requires db.chats[Parse(chatId).value] == chat
    modifies db`chats
    ensures r == Compact(cfg, engine, chat)
    ensures r.Success? && r.value.Some? ==>
      db.chats == SummaryReplaced(old(db.chats), Parse(chatId).value, r.value.value.summary, r.value.value.kept)
    ensures !(r.Success? && r.value.Some?) ==> db.chats == old(db.chats)
  {
    if |chat.messages| <= cfg.maxMessages {
      return Success(None);
    }
    var parts := SplitForCompaction(chat.messages, cfg.keepLast);
    var newSummary := SummarizeMessages(engine, parts.evicted);
    if newSummary.Failure? {
      return Failure(newSummary.error);
    }
    var combined := newSummary;
    if HasSummary(chat) {
      combined := SummarizeMessages(engine, MergeInput(chat.summary.value, newSummary.value));
      if combined.Failure? {
        return Failure(combined.error);
      }
    }
    var replaced := db.ReplaceSummary(chatId, combined.value, parts.kept);
    r := Success(Some(Compaction(combined.value, parts.kept)));
  }

  /** The `follow_up` handler: two store writes, the compaction first. */
  method FollowUp(db: Database, cfg: Config, engine: Engine, user: string, chatId: string, question: string)
    returns (r: Result<string>)
    modifies db`chats
    ensures Step(db.chats, r) == FollowUpSpec(cfg, engine, old(db.chats), chatId, user, question)
  {
    var found := ChatById(db.chats, chatId);
    if found.Failure? {
      return Failure(found.error);
    }
    if found.value.None? {
      return Failure(NotFound);
    }
    var chat := found.value.value;
    if chat.owner != user {
      return Failure(Forbidden);
    }
    ghost var id := Parse(chatId).value;
    assert FollowUpSpec(cfg, engine, old(db.chats), chatId, user, question)
        == FollowUpOwned(cfg, engine, old(db.chats), id, question);
    var compaction := CompactIfDue(db, cfg, engine, chatId, chat);
    if compaction.Failure? {
      return Failure(compaction.error);
    }
    ghost var c := compaction.value;
    assert db.chats == if c.Some? then SummaryReplaced(old(db.chats), id, c.value.summary, c.value.kept) else old(db.chats);
    var messages := chat.messages;
    if compaction.value.Some? {
      messages := compaction.value.value.kept;
    }
    messages := messages + [Message(User, question)];
    var gptInput := [];
    if HasSummary(chat) {
      gptInput := gptInput + [Message(User, SummaryFramingLead + chat.summary.value)];
    }
    gptInput := gptInput + messages;
    assert gptInput == CompletionInput(chat, Working(chat, compaction.value), question);
    var reply := Complete(engine, gptInput, ReplySampling);
    if reply.Failure? {
      return Failure(reply.error);
    }
    var appended := db.AppendToChat(chatId, question, reply.value);
    r := Success(reply.value);
  }

  // ---------------------------------------------------------------------
  // Reading history

  datatype ChatView = ChatView(chatId: string, noteIds: seq<string>, createdAt: int, messages: seq<Message>)

  /** `get_chat_history`: the same id and ownership checks as a follow-up;
      the owner gets the note ids, creation time and messages, and the
      summary stays internal. */
  function History(chats: Chats, chatId: string, user: string): (r: Result<ChatView>)
    ensures match Parse(chatId)
      case None => r == Failure(InvalidId)
      case Some(id) =>
        && (id !in chats ==> r == Failure(NotFound))
        && (id in chats && chats[id].owner != user ==> r == Failure(Forbidden))
        && (id in chats && chats[id].owner == user ==>
              r == Success(ChatView(chatId, chats[id].noteIds, chats[id].createdAt, chats[id].messages)))
  {
    match ChatById(chats, chatId)
    case Failure(e) => Failure(e)
    case Success(None) => Failure(NotFound)
    case Success(Some(chat)) =>
      if chat.owner != user then Failure(Forbidden)
      else Success(ChatView(chatId, chat.noteIds, chat.createdAt, chat.messages))
  }

  /** The `get_chat_history` handler; it changes nothing. */
  method GetChatHistory(db: Database, chatId: string, user: string) returns (r: Result<ChatView>)
    ensures r == History(db.chats, chatId, user)
  {
    var found := ChatById(db.chats, chatId);
    if found.Failure? {
      return Failure(found.error);
    }
    if found.value.None? {
      return Failure(NotFound);
    }
    var chat := found.value.value;
    if chat.owner != user {
      return Failure(Forbidden);
    }
    r := Success(ChatView(chatId, chat.noteIds, chat.createdAt, chat.messages));
  }
}
