/**
 * The chat session store of `routes/chat.py`: session records in one dict,
 * each session's message log in a second dict under the same key.
 */
module Chat {
  import opened Base
  import opened Text
  import opened Stores

  datatype Role = User | Assistant

  datatype Message = Message(id: string, role: Role, content: string, timestamp: nat, sessionId: string)

  datatype Session = Session(id: string, classId: string, title: string, createdAt: nat, updatedAt: nat)

  datatype SessionMetadata = SessionMetadata(
    id: string,
    classId: string,
    title: string,
    messageCount: nat,
    createdAt: nat,
    updatedAt: nat,
    lastMessagePreview: Option<string>)

  datatype SessionDetail = SessionDetail(
    id: string,
    classId: string,
    title: string,
    messages: seq<Message>,
    createdAt: nat,
    updatedAt: nat)

  datatype SessionList = SessionList(sessions: seq<SessionMetadata>, total: nat)

  datatype ChatRequest = ChatRequest(classId: string, message: string, conversationId: Option<string>, focus: Option<string>)

  datatype ChatResponse = ChatResponse(response: string, conversationId: string, timestamp: nat)

  datatype Failure =
    | NotFound                     // 404
    | Internal                     // 500 "Error processing chat request: ..."

  const DefaultTitle: string := "New Conversation"
  const Ellipsis: string := "..."
  const TruncateAt: nat := 50

  // ---------------------------------------------------------------- titles and previews

  /** `request.title or "New Conversation"`: an absent or empty title gets the default. */
  function InitialTitle(requested: Option<string>): (t: string)
    ensures t != ""
    ensures requested.Some? && requested.value != "" ==> t == requested.value
    ensures requested.None? || requested.value == "" ==> t == DefaultTitle
  {
    if requested.Some? && requested.value != "" then requested.value else DefaultTitle
  }

  /** The title of a session opened by `chat`: the message, cut to 50 characters plus "..." only when longer. */
  function TitleFromMessage(m: string): (t: string)
    ensures |m| <= TruncateAt ==> t == m
    ensures |m| > TruncateAt ==> |t| == TruncateAt + |Ellipsis| && t[..TruncateAt] == m[..TruncateAt] && t[TruncateAt..] == Ellipsis
  {
    if |m| > TruncateAt then m[..TruncateAt] + Ellipsis else m
  }

  /** The preview of a log: its last message cut to 50 characters, always followed by "...". */
  function Preview(log: seq<Message>): (p: Option<string>)
    ensures p.None? <==> log == []
    ensures p.Some? ==>
      var content := log[|log| - 1].content;
      && |p.value| == |Take(content, TruncateAt)| + |Ellipsis|
      && p.value[..|p.value| - |Ellipsis|] <= content
      && p.value[|p.value| - |Ellipsis|..] == Ellipsis
  {
    if log == [] then None else Some(Take(log[|log| - 1].content, TruncateAt) + Ellipsis)
  }

  /**
   * The two truncation rules differ: a short message becomes a title as it is,
   * but its preview still gains "..."; a long one is cut the same way by both.
   */
  lemma TruncationRulesDiffer(m: Message, log: seq<Message>)
    requires log != [] && log[|log| - 1] == m
    ensures |m.content| <= TruncateAt ==> Preview(log) == Some(TitleFromMessage(m.content) + Ellipsis)
    ensures |m.content| <= TruncateAt ==> Preview(log) != Some(TitleFromMessage(m.content))
    ensures |m.content| > TruncateAt ==> Preview(log) == Some(TitleFromMessage(m.content))
  {
    if |m.content| <= TruncateAt {
      assert |Preview(log).value| == |TitleFromMessage(m.content)| + 3;
    }
  }

  /** `messages_db.get(id, [])`. */
  function Log(messages: map<string, seq<Message>>, id: string): (log: seq<Message>)
    ensures id in messages ==> log == messages[id]
    ensures id !in messages ==> log == []
  {
    if id in messages then messages[id] else []
  }

  function Summary(s: Session, log: seq<Message>): (m: SessionMetadata)
    ensures m.messageCount == |log| && m.lastMessagePreview == Preview(log)
    ensures m.id == s.id && m.classId == s.classId && m.title == s.title
    ensures m.createdAt == s.createdAt && m.updatedAt == s.updatedAt
  {
    SessionMetadata(s.id, s.classId, s.title, |log|, s.createdAt, s.updatedAt, Preview(log))
  }

  /** `get_chat_session`. */
  function GetSession(sessions: map<string, Session>, messages: map<string, seq<Message>>, id: string): (r: Result<SessionDetail, Failure>)
    ensures r.Ok? <==> id in sessions
    ensures r.Err? ==> r.error == NotFound
    ensures r.Ok? ==>
      && r.value.messages == Log(messages, id)
      && r.value.id == sessions[id].id && r.value.classId == sessions[id].classId && r.value.title == sessions[id].title
      && r.value.createdAt == sessions[id].createdAt && r.value.updatedAt == sessions[id].updatedAt
  {
    if id !in sessions then Err(NotFound)
    else
      var s := sessions[id];
      Ok(SessionDetail(s.id, s.classId, s.title, Log(messages, id), s.createdAt, s.updatedAt))
  }

  // ---------------------------------------------------------------- ordering by recency

  /** Most recently updated first. */
  predicate SortedByRecency(s: seq<SessionMetadata>)
  {
    forall i, j :: 0 <= i < j < |s| ==> s[i].updatedAt >= s[j].updatedAt
  }

  /** `x` placed before the first entry that is not more recent than it. */
  function InsertByRecency(x: SessionMetadata, s: seq<SessionMetadata>): (r: seq<SessionMetadata>)
    requires SortedByRecency(s)
    ensures SortedByRecency(r)
    ensures |r| == |s| + 1 && (r[0] == x || (s != [] && r[0] == s[0]))
  {
    if s == [] || s[0].updatedAt <= x.updatedAt then [x] + s
    else
      var rest := InsertByRecency(x, s[1..]);
      assert s == [s[0]] + s[1..];
      assert rest[0].updatedAt <= s[0].updatedAt;
      [s[0]] + rest
  }

  /** Inserting adds `x` and keeps everything else. */
  lemma {:induction false} InsertAddsOne(x: SessionMetadata, s: seq<SessionMetadata>)
    requires SortedByRecency(s)
    ensures multiset(InsertByRecency(x, s)) == multiset(s) + multiset{x}
  {
    if s == [] || s[0].updatedAt <= x.updatedAt {
    } else {
      InsertAddsOne(x, s[1..]);
      assert s == [s[0]] + s[1..];
    }
  }

  /**
   * `list.sort(key=updated_at, reverse=True)`: a stable sort, most recent first.
   * Python's sort is stable, so its result is this one.
   */
  function SortByRecency(s: seq<SessionMetadata>): (r: seq<SessionMetadata>)
    ensures SortedByRecency(r)
    ensures multiset(r) == multiset(s)
  {
    if s == [] then []
    else
      assert s == [s[0]] + s[1..];
      InsertAddsOne(s[0], SortByRecency(s[1..]));
      InsertByRecency(s[0], SortByRecency(s[1..]))
  }

  /** The entries stamped `t`, in their order. */
  function StampedAt(s: seq<SessionMetadata>, t: nat): seq<SessionMetadata>
  {
    if s == [] then []
    else (if s[0].updatedAt == t then [s[0]] else []) + StampedAt(s[1..], t)
  }

  lemma StampedAtCons(y: SessionMetadata, s: seq<SessionMetadata>, t: nat)
    ensures StampedAt([y] + s, t) == (if y.updatedAt == t then [y] else []) + StampedAt(s, t)
  {
    assert ([y] + s)[1..] == s;
  }

  lemma {:induction false} InsertKeepsTies(x: SessionMetadata, s: seq<SessionMetadata>, t: nat)
    requires SortedByRecency(s)
    ensures StampedAt(InsertByRecency(x, s), t) == (if x.updatedAt == t then [x] else []) + StampedAt(s, t)
  {
    if s == [] || s[0].updatedAt <= x.updatedAt {
      StampedAtCons(x, s, t);
    } else {
      var rest := InsertByRecency(x, s[1..]);
      var tail := StampedAt(s[1..], t);
      InsertKeepsTies(x, s[1..], t);
      assert InsertByRecency(x, s) == [s[0]] + rest;
      StampedAtCons(s[0], rest, t);
      if s[0].updatedAt == t {
        assert x.updatedAt != t;
        assert StampedAt(InsertByRecency(x, s), t) == [s[0]] + tail == StampedAt(s, t);
      } else {
        assert StampedAt(InsertByRecency(x, s), t) == StampedAt(rest, t);
        assert StampedAt(s, t) == tail;
      }
    }
  }

  /** Sessions with the same `updatedAt` keep their relative order: the sort is stable. */
  lemma {:induction false} SortIsStable(s: seq<SessionMetadata>, t: nat)
    ensures StampedAt(SortByRecency(s), t) == StampedAt(s, t)
  {
    if s != [] {
      SortIsStable(s[1..], t);
      InsertKeepsTies(s[0], SortByRecency(s[1..]), t);
    }
  }

  /** The keys `list_chat_sessions` reports, in store order. */
  function ListedKeys(sessions: map<string, Session>, order: seq<string>, classId: Option<string>): (keys: seq<string>)
    requires forall k :: k in order ==> k in sessions
    ensures IsSubsequence(keys, order)
    ensures forall k :: k in keys <==> k in order && PassesClassFilter(classId, sessions[k].classId)
  {
    KeysWhere(order, sessions, (s: Session) => PassesClassFilter(classId, s.classId))
  }

  /** The metadata of the sessions under `keys`, in that order. */
  function Summaries(sessions: map<string, Session>, messages: map<string, seq<Message>>, keys: seq<string>): (ms: seq<SessionMetadata>)
    requires forall k :: k in keys ==> k in sessions
    ensures |ms| == |keys|
    ensures forall i :: 0 <= i < |keys| ==> ms[i] == Summary(sessions[keys[i]], Log(messages, keys[i]))
  {
    seq(|keys|, i requires 0 <= i < |keys| => Summary(sessions[keys[i]], Log(messages, keys[i])))
  }

  /**
   * `list_chat_sessions`: builds the metadata of the sessions that pass the class
   * filter, then sorts it most recent first.
   */
  method ListSessions(sessions: map<string, Session>, messages: map<string, seq<Message>>, order: seq<string>, classId: Option<string>)
    returns (r: SessionList)
    requires forall k :: k in order ==> k in sessions
    ensures var unsorted := Summaries(sessions, messages, ListedKeys(sessions, order, classId));
      && r.sessions == SortByRecency(unsorted)
      && multiset(r.sessions) == multiset(unsorted)
    ensures SortedByRecency(r.sessions)
    ensures r.total == |r.sessions|
  {
    var keys := ListedKeys(sessions, order, classId);
    ghost var all := Summaries(sessions, messages, keys);
    var metadata: seq<SessionMetadata> := [];
    for i := 0 to |keys|
      invariant metadata == all[..i]
    {
      metadata := metadata + [Summary(sessions[keys[i]], Log(messages, keys[i]))];
      assert all[..i + 1] == all[..i] + [all[i]];
    }
    assert all[..|keys|] == all;
    var sorted := SortByRecency(metadata);
    r := SessionList(sorted, |sorted|);
  }

  // ---------------------------------------------------------------- the store

  /** Whether `chat` is pointed at an existing conversation (`if not session_id` is false). */
  predicate NamesConversation(req: ChatRequest)
  {
    req.conversationId.Some? && req.conversationId.value != ""
  }

  /** The record stored under `k`, stamped by earlier clock readings. */
  predicate SessionStamped(s: Session, k: string, clock: nat)
  {
    s.id == k && s.createdAt <= s.updatedAt < clock
  }

  /** Every message of the log under `k` points back to session `k`. */
  predicate LogOwnedBy(log: seq<Message>, k: string)
  {
    forall i :: 0 <= i < |log| ==> log[i].sessionId == k
  }

  /** Both maps have the same keys, and `order` lists each of them once. */
  ghost predicate KeysAgree(sessions: map<string, Session>, messages: map<string, seq<Message>>, order: seq<string>)
  {
    && sessions.Keys == messages.Keys
    && (forall k :: k in sessions <==> k in order)
    && NoDuplicates(order)
  }

  ghost predicate AllStamped(sessions: map<string, Session>, clock: nat)
  {
    forall k :: k in sessions ==> SessionStamped(sessions[k], k, clock)
  }

  ghost predicate AllOwned(messages: map<string, seq<Message>>)
  {
    forall k :: k in messages ==> LogOwnedBy(messages[k], k)
  }

  /** `sessions_db` and `messages_db`, their insertion order, and the clock `datetime.utcnow()` reads. */
  class ChatStore {
    var sessions: map<string, Session>
    var messages: map<string, seq<Message>>
    var order: seq<string>
    var clock: nat
    /** Every session id ever handed out; uuid4 never repeats one. */
    ghost var issued: set<string>

    ghost predicate Valid()
      reads this
    {
      && KeysAgree(sessions, messages, order)
      && sessions.Keys <= issued
      && AllStamped(sessions, clock)
      && AllOwned(messages)
    }

    constructor ()
      ensures Valid()
      ensures sessions == map[] && messages == map[] && order == [] && issued == {}
    {
      sessions := map[];
      messages := map[];
      order := [];
      clock := 0;
      issued := {};
    }

    /** One reading of the clock; every reading is later than the previous ones. */
    method Now() returns (t: nat)
      modifies this`clock
      ensures t == old(clock) && clock == old(clock) + 1
    {
      t := clock;
      clock := clock + 1;
    }

    /** Opens an empty session under a fresh key in both maps (the inserts shared by `create_chat_session` and `chat`). */
    method Open(id: string, classId: string, title: string)
      requires Valid()
      requires id !in issued
      modifies this
      ensures Valid()
      ensures id !in old(sessions) && id !in old(messages)
      ensures sessions == old(sessions)[id := Session(id, classId, title, old(clock), old(clock))]
      ensures messages == old(messages)[id := []]
      ensures order == old(order) + [id] && issued == old(issued) + {id}
      ensures clock == old(clock) + 1
    {
      var t := Now();
      sessions := sessions[id := Session(id, classId, title, t, t)];
      messages := messages[id := []];
      order := order + [id];
      issued := issued + {id};
    }

    /** Appends one message, stamped now, to the log of an existing session. */
    method Append(sid: string, id: string, role: Role, content: string) returns (m: Message)
      requires Valid()
      requires sid in sessions
      modifies this
      ensures Valid()
      ensures m == Message(id, role, content, old(clock), sid)
      ensures messages == old(messages)[sid := old(messages)[sid] + [m]]
      ensures sessions == old(sessions) && order == old(order) && issued == old(issued)
      ensures clock == old(clock) + 1
    {
      var t := Now();
      m := Message(id, role, content, t, sid);
      messages := messages[sid := messages[sid] + [m]];
    }

    /** Sets `updated_at` of an existing session to now. */
    method Touch(sid: string)
      requires Valid()
      requires sid in sessions
      modifies this
      ensures Valid()
      ensures sessions == old(sessions)[sid := old(sessions)[sid].(updatedAt := old(clock))]
      ensures messages == old(messages) && order == old(order) && issued == old(issued)
      ensures clock == old(clock) + 1
    {
      var t := Now();
      sessions := sessions[sid := sessions[sid].(updatedAt := t)];
    }

    /** `create_chat_session`: both maps gain the same fresh key; the log starts empty. */
    method CreateSession(classId: string, title: Option<string>, id: string) returns (m: SessionMetadata)
      requires Valid()
      requires id !in issued
      modifies this
      ensures Valid()
      ensures id !in old(sessions) && id !in old(messages)
      ensures sessions == old(sessions)[id := Session(id, classId, InitialTitle(title), old(clock), old(clock))]
      ensures messages == old(messages)[id := []]
      ensures order == old(order) + [id] && issued == old(issued) + {id}
      ensures m == Summary(sessions[id], [])
      ensures m.messageCount == 0 && m.lastMessagePreview == None && m.createdAt == m.updatedAt
    {
      Open(id, classId, InitialTitle(title));
      m := Summary(sessions[id], []);
    }

    /** `update_chat_session_title`: sets the title and restamps; logs and other sessions stay. */
    method Rename(id: string, title: string) returns (r: Result<SessionMetadata, Failure>)
      requires Valid()
      modifies this
      ensures Valid()
      ensures messages == old(messages) && order == old(order) && issued == old(issued)
      ensures id !in old(sessions) ==> r == Err(NotFound) && sessions == old(sessions) && clock == old(clock)
      ensures id in old(sessions) ==>
        && sessions == old(sessions)[id := old(sessions)[id].(title := title, updatedAt := old(clock))]
        && sessions[id].updatedAt > old(sessions)[id].updatedAt
        && r == Ok(Summary(sessions[id], messages[id]))
    {
      if id !in sessions {
        return Err(NotFound);
      }
      sessions := sessions[id := sessions[id].(title := title)];
      Touch(id);
      r := Ok(Summary(sessions[id], Log(messages, id)));
    }

    /** `delete_chat_session`: the session and its log go together. */
    method Delete(id: string) returns (r: Result<(), Failure>)
      requires Valid()
      modifies this
      ensures Valid()
      ensures issued == old(issued) && clock == old(clock)
      ensures id !in old(sessions) ==> r == Err(NotFound) && sessions == old(sessions) && messages == old(messages) && order == old(order)
      ensures id in old(sessions) ==>
        && r == Ok(())
        && sessions == old(sessions) - {id}
        && messages == old(messages) - {id}
        && order == Remove(old(order), id)
    {
      if id !in sessions {
        return Err(NotFound);
      }
      RemoveKeepsNoDuplicates(order, id);
      sessions := sessions - {id};
      if id in messages {
        messages := messages - {id};
      }
      order := Remove(order, id);
      r := Ok(());
    }

    /** `clear_chat_history`: the log becomes empty, the session stays and is restamped. */
    method Clear(id: string) returns (r: Result<(), Failure>)
      requires Valid()
      modifies this
      ensures Valid()
      ensures order == old(order) && issued == old(issued)
      ensures id !in old(sessions) ==> r == Err(NotFound) && sessions == old(sessions) && messages == old(messages) && clock == old(clock)
      ensures id in old(sessions) ==>
        && r == Ok(())
        && messages == old(messages)[id := []]
        && sessions == old(sessions)[id := old(sessions)[id].(updatedAt := old(clock))]
    {
      if id !in sessions {
        return Err(NotFound);
      }
      messages := messages[id := []];
      Touch(id);
      r := Ok(());
    }

    /**
     * `chat`. `reply` is what the agent call returns, `None` when it raises. An
     * unknown conversation fails before anything is written; otherwise the user
     * message is appended before the agent is called, so a failing agent call
     * leaves it (and any session just opened) in place.
     */
    method Chat(req: ChatRequest, newId: string, userMessageId: string, assistantMessageId: string, reply: Option<string>)
      returns (r: Result<ChatResponse, Failure>)
      requires Valid()
      requires newId !in issued
      modifies this
      ensures Valid()
      ensures NamesConversation(req) && req.conversationId.value !in old(sessions) ==>
        && r == Err(NotFound)
        && sessions == old(sessions) && messages == old(messages) && order == old(order)
        && issued == old(issued) && clock == old(clock)
      ensures !NamesConversation(req) ==>
        && newId !in old(sessions)
        && order == old(order) + [newId] && issued == old(issued) + {newId}
      ensures NamesConversation(req) ==> order == old(order) && issued == old(issued)
      // an existing conversation
      ensures NamesConversation(req) && req.conversationId.value in old(sessions) && reply.None? ==>
        var sid := req.conversationId.value;
        && r == Err(Internal)
        && sessions == old(sessions)
        && messages == old(messages)[sid := old(messages)[sid] + [Message(userMessageId, User, req.message, old(clock), sid)]]
      ensures NamesConversation(req) && req.conversationId.value in old(sessions) && reply.Some? ==>
        var sid := req.conversationId.value;
        && r == Ok(ChatResponse(reply.value, sid, old(clock)))
        && sessions == old(sessions)[sid := old(sessions)[sid].(updatedAt := old(clock) + 2)]
        && messages == old(messages)[sid := old(messages)[sid] + [
             Message(userMessageId, User, req.message, old(clock), sid),
             Message(assistantMessageId, Assistant, reply.value, old(clock) + 1, sid)]]
      // a new conversation, titled after the message
      ensures !NamesConversation(req) && reply.None? ==>
        && r == Err(Internal)
        && sessions == old(sessions)[newId := Session(newId, req.classId, TitleFromMessage(req.message), old(clock), old(clock))]
        && messages == old(messages)[newId := [Message(userMessageId, User, req.message, old(clock) + 1, newId)]]
      ensures !NamesConversation(req) && reply.Some? ==>
        && r == Ok(ChatResponse(reply.value, newId, old(clock) + 1))
        && sessions == old(sessions)[newId := Session(newId, req.classId, TitleFromMessage(req.message), old(clock), old(clock) + 3)]
        && messages == old(messages)[newId := [
             Message(userMessageId, User, req.message, old(clock) + 1, newId),
             Message(assistantMessageId, Assistant, reply.value, old(clock) + 2, newId)]]
    {
      if NamesConversation(req) {
        var sid := req.conversationId.value;
        if sid !in sessions {
          return Err(NotFound);
        }
        r := Exchange(sid, req.message, userMessageId, assistantMessageId, reply);
      } else {
        r := StartConversation(req.classId, req.message, newId, userMessageId, assistantMessageId, reply);
      }
    }

    /** `chat` without a conversation id: a session titled after the message, then the exchange. */
    method StartConversation(classId: string, message: string, newId: string, userMessageId: string, assistantMessageId: string, reply: Option<string>)
      returns (r: Result<ChatResponse, Failure>)
      requires Valid()
      requires newId !in issued
      modifies this
      ensures Valid()
      ensures newId !in old(sessions)
      ensures order == old(order) + [newId] && issued == old(issued) + {newId}
      ensures reply.None? ==>
        && r == Err(Internal)
        && sessions == old(sessions)[newId := Session(newId, classId, TitleFromMessage(message), old(clock), old(clock))]
        && messages == old(messages)[newId := [Message(userMessageId, User, message, old(clock) + 1, newId)]]
      ensures reply.Some? ==>
        && r == Ok(ChatResponse(reply.value, newId, old(clock) + 1))
        && sessions == old(sessions)[newId := Session(newId, classId, TitleFromMessage(message), old(clock), old(clock) + 3)]
        && messages == old(messages)[newId := [
             Message(userMessageId, User, message, old(clock) + 1, newId),
             Message(assistantMessageId, Assistant, reply.value, old(clock) + 2, newId)]]
    {
      ghost var session := Session(newId, classId, TitleFromMessage(message), clock, clock);
      ghost var user := Message(userMessageId, User, message, clock + 1, newId);
      Open(newId, classId, TitleFromMessage(message));
      if reply.Some? {
        r := Exchange(newId, message, userMessageId, assistantMessageId, reply);
        ghost var assistant := Message(assistantMessageId, Assistant, reply.value, session.createdAt + 2, newId);
        assert [] + [user, assistant] == [user, assistant];
        OverwriteTwice(old(messages), newId, [], [user, assistant]);
        OverwriteTwice(old(sessions), newId, session, session.(updatedAt := session.createdAt + 3));
      } else {
        r := Exchange(newId, message, userMessageId, assistantMessageId, reply);
        assert [] + [user] == [user];
        OverwriteTwice(old(messages), newId, [], [user]);
      }
    }

    /** The second half of `chat`: store the user message, then the reply, then restamp the session. */
    method Exchange(sid: string, message: string, userMessageId: string, assistantMessageId: string, reply: Option<string>)
      returns (r: Result<ChatResponse, Failure>)
      requires Valid()
      requires sid in sessions
      modifies this
      ensures Valid()
      ensures order == old(order) && issued == old(issued)
      ensures reply.None? ==>
        && r == Err(Internal)
        && sessions == old(sessions)
        && messages == old(messages)[sid := old(messages)[sid] + [Message(userMessageId, User, message, old(clock), sid)]]
      ensures reply.Some? ==>
        && r == Ok(ChatResponse(reply.value, sid, old(clock)))
        && sessions == old(sessions)[sid := old(sessions)[sid].(updatedAt := old(clock) + 2)]
        && messages == old(messages)[sid := old(messages)[sid] + [
             Message(userMessageId, User, message, old(clock), sid),
             Message(assistantMessageId, Assistant, reply.value, old(clock) + 1, sid)]]
        && clock == old(clock) + 3
    {
      var user := Append(sid, userMessageId, User, message);
      if reply.None? {
        return Err(Internal);
      }
      ghost var logged := old(messages)[sid] + [user];
      Answer(sid, assistantMessageId, reply.value);
      ghost var assistant := Message(assistantMessageId, Assistant, reply.value, user.timestamp + 1, sid);
      assert logged + [assistant] == old(messages)[sid] + [user, assistant];
      OverwriteTwice(old(messages), sid, logged, logged + [assistant]);
      r := Ok(ChatResponse(reply.value, sid, user.timestamp));
    }

    /** The agent's reply is appended, then the session is restamped. */
    method Answer(sid: string, id: string, reply: string)
      requires Valid()
      requires sid in sessions
      modifies this
      ensures Valid()
      ensures order == old(order) && issued == old(issued) && clock == old(clock) + 2
      ensures sessions == old(sessions)[sid := old(sessions)[sid].(updatedAt := old(clock) + 1)]
      ensures messages == old(messages)[sid := old(messages)[sid] + [Message(id, Assistant, reply, old(clock), sid)]]
    {
      var _ := Append(sid, id, Assistant, reply);
      Touch(sid);
    }
  }

  /** Message logs only grow under `chat`: every old log is a prefix of its new one. */
  method ChatOnlyAppends(store: ChatStore, req: ChatRequest, newId: string, userMessageId: string, assistantMessageId: string, reply: Option<string>)
    requires store.Valid() && newId !in store.issued
    modifies store
    ensures store.Valid()
    ensures forall k :: k in old(store.messages) ==> k in store.messages && old(store.messages)[k] <= store.messages[k]
  {
    var r := store.Chat(req, newId, userMessageId, assistantMessageId, reply);
  }

  /**
   * A new conversation: with no conversation id, or an empty one (`if not
   * session_id`), a fresh session holds the user message, then the reply.
   */
  method NewConversation(store: ChatStore, classId: string, message: string, conversationId: Option<string>, newId: string, reply: string)
    requires store.Valid() && newId !in store.issued
    requires conversationId.None? || conversationId.value == ""
    modifies store
    ensures store.Valid()
    ensures newId in store.sessions && newId !in old(store.sessions)
    ensures |store.messages[newId]| == 2
    ensures store.messages[newId][0].role == User && store.messages[newId][0].content == message
    ensures store.messages[newId][1].role == Assistant && store.messages[newId][1].content == reply
  {
    var r := store.Chat(ChatRequest(classId, message, conversationId, None), newId, "user-message", "assistant-message", Some(reply));
    assert r.Ok? && r.value.conversationId == newId;
  }
}
