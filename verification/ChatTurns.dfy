/** The turn protocol of one chat session (app/chat/service.py). Every transaction is one atomic step, which is what
    the row lock on the session gives; turn and message ids are positions in their tables. */
module ChatTurns {

  import opened Wrappers

  datatype TurnState = Pending | Streaming | Completed | Failed | Cancelled
  datatype Role = User | Assistant
  datatype Delivery = Committed | Streaming | Completed | Failed | Cancelled

  datatype Turn = Turn(
    clientId: nat, hash: Payload, state: TurnState, createdAt: int, startedAt: Option<int>, completedAt: Option<int>)

  datatype Message = Message(
    turn: nat, role: Role, sequence: nat, content: string, delivery: Delivery, answerStatus: Option<string>,
    finalizedAt: Option<int>)

  datatype Chat = Chat(deleted: bool, turns: seq<Turn>, messages: seq<Message>)

  datatype Request = Request(clientId: nat, query: string, documentIds: Option<seq<nat>>)

  /** What the request hash is taken of; the hash itself is injective. */
  datatype Payload = Payload(documentIds: seq<nat>, query: string)

  datatype TurnHandle = TurnHandle(turn: nat, userMessage: nat, assistantMessage: nat, hash: Payload, replayed: bool)

  datatype ChatError =
    | ResourceNotFound
    | IdempotencyKeyConflict
    | SessionTurnInProgress(turn: nat)
    | TurnInProgress(turn: nat, assistantMessage: nat)
    | TurnFailed(turn: nat)
    | TurnCancelled(turn: nat)
    | TurnNotActive
    | SessionBusy(turn: nat)
    | InvalidCompletion

  // ---------- the request hash ----------

  predicate Ascending(s: seq<nat>) {
    |s| <= 1 || (s[0] <= s[1] && Ascending(s[1..]))
  }

  function Insert(x: nat, s: seq<nat>): seq<nat> {
    if s == [] || x <= s[0] then [x] + s else [s[0]] + Insert(x, s[1..])
  }

  function Sorted(s: seq<nat>): seq<nat> {
    if s == [] then [] else Insert(s[0], Sorted(s[1..]))
  }

  lemma {:induction false} InsertBag(x: nat, s: seq<nat>)
    ensures multiset(Insert(x, s)) == multiset([x] + s)
  {
    if s != [] && x > s[0] {
      InsertBag(x, s[1..]);
      assert multiset(s) == multiset([s[0]]) + multiset(s[1..]) by { assert s == [s[0]] + s[1..]; }
      assert multiset([x] + s) == multiset([x]) + multiset(s);
      assert multiset([x] + s[1..]) == multiset([x]) + multiset(s[1..]);
      assert multiset(Insert(x, s)) == multiset([s[0]]) + multiset(Insert(x, s[1..]));
    }
  }

  lemma {:induction false} InsertAscends(x: nat, s: seq<nat>)
    requires Ascending(s)
    ensures Ascending(Insert(x, s)) && (s != [] && x > s[0] ==> Insert(x, s)[0] == s[0])
  {
    if s != [] && x > s[0] { InsertAscends(x, s[1..]); }
  }

  lemma {:induction false} SortedSorts(s: seq<nat>)
    ensures Ascending(Sorted(s)) && multiset(Sorted(s)) == multiset(s)
  {
    if s != [] {
      SortedSorts(s[1..]);
      InsertBag(s[0], Sorted(s[1..]));
      InsertAscends(s[0], Sorted(s[1..]));
      assert s == [s[0]] + s[1..];
      assert multiset(Sorted(s)) == multiset{s[0]} + multiset(Sorted(s[1..]));
    }
  }

  predicate Blank(c: char) {
    c == ' ' || c == '\t' || c == '\r' || c == '\n'
  }

  function Strip(s: string): string {
    if s == "" then ""
    else if Blank(s[0]) then Strip(s[1..])
    else if Blank(s[|s| - 1]) then Strip(s[..|s| - 1])
    else s
  }

  function RequestHash(request: Request): Payload {
    Payload(Sorted(if request.documentIds.Some? then request.documentIds.value else []), Strip(request.query))
  }

  lemma {:induction false} LeastFirst(s: seq<nat>, y: nat)
    requires Ascending(s) && y in s
    ensures s[0] <= y
  {
    if y != s[0] {
      assert y in s[1..];
      LeastFirst(s[1..], y);
    }
  }

  lemma TailBag(s: seq<nat>)
    requires s != []
    ensures multiset(s[1..]) == multiset(s) - multiset{s[0]}
  {
    assert s == [s[0]] + s[1..];
  }

  lemma SameFirst(a: seq<nat>, b: seq<nat>)
    requires Ascending(a) && Ascending(b) && multiset(a) == multiset(b) && a != []
    ensures b != [] && a[0] == b[0]
  {
    assert a[0] in multiset(b);
    assert b[0] in multiset(a);
    LeastFirst(a, b[0]);
    LeastFirst(b, a[0]);
  }

  lemma {:induction false} SortedUnique(a: seq<nat>, b: seq<nat>)
    requires Ascending(a) && Ascending(b) && multiset(a) == multiset(b)
    ensures a == b
  {
    if a == [] {
      assert |multiset(b)| == |b|;
    } else {
      SameFirst(a, b);
      TailBag(a);
      TailBag(b);
      SortedUnique(a[1..], b[1..]);
      assert a == [a[0]] + a[1..] && b == [b[0]] + b[1..];
    }
  }

  /** Two requests have the same hash exactly when they ask the same stripped question of the same documents, in
      whatever order and with no list meaning the empty list. */
  lemma SameHash(r: Request, r': Request)
    ensures RequestHash(r) == RequestHash(r') <==>
      && Strip(r.query) == Strip(r'.query)
      && multiset(if r.documentIds.Some? then r.documentIds.value else []) ==
         multiset(if r'.documentIds.Some? then r'.documentIds.value else [])
  {
    var a, b := if r.documentIds.Some? then r.documentIds.value else [], if r'.documentIds.Some? then r'.documentIds.value else [];
    SortedSorts(a);
    SortedSorts(b);
    if multiset(a) == multiset(b) { SortedUnique(Sorted(a), Sorted(b)); }
  }

  // ---------- queries ----------

  predicate Active(turn: Turn) {
    turn.state == TurnState.Pending || turn.state == TurnState.Streaming
  }

  function ActiveIn(turns: seq<Turn>, from: nat := 0): (found: Option<nat>)
    requires from <= |turns|
    ensures found.Some? ==> from <= found.value < |turns| && Active(turns[found.value])
    ensures found.None? ==> forall k | from <= k < |turns| :: !Active(turns[k])
    decreases |turns| - from
  {
    if from == |turns| then None else if Active(turns[from]) then Some(from) else ActiveIn(turns, from + 1)
  }

  function ClientIn(turns: seq<Turn>, clientId: nat, from: nat := 0): (found: Option<nat>)
    requires from <= |turns|
    ensures found.Some? ==> from <= found.value < |turns| && turns[found.value].clientId == clientId
    ensures found.None? ==> forall k | from <= k < |turns| :: turns[k].clientId != clientId
    decreases |turns| - from
  {
    if from == |turns| then None
    else if turns[from].clientId == clientId then Some(from) else ClientIn(turns, clientId, from + 1)
  }

  /** The message of a turn in a role. */
  function MessageOf(messages: seq<Message>, turn: nat, role: Role, from: nat := 0): (found: Option<nat>)
    requires from <= |messages|
    ensures found.Some? ==>
      from <= found.value < |messages| && messages[found.value].turn == turn && messages[found.value].role == role
    ensures found.None? ==> forall k | from <= k < |messages| :: messages[k].turn != turn || messages[k].role != role
    decreases |messages| - from
  {
    if from == |messages| then None
    else if messages[from].turn == turn && messages[from].role == role then Some(from)
    else MessageOf(messages, turn, role, from + 1)
  }

  function MaxSequence(messages: seq<Message>): nat {
    if messages == [] then 0
    else
      var rest := MaxSequence(messages[..|messages| - 1]);
      if messages[|messages| - 1].sequence > rest then messages[|messages| - 1].sequence else rest
  }

  // ---------- the transactions as functions ----------

  predicate Stale(turn: Turn, now: int, staleAfter: nat) {
    var activity := if turn.state == TurnState.Streaming then turn.startedAt else Some(turn.createdAt);
    activity.Some? && activity.value < now - staleAfter
  }

  function Recovered(chat: Chat, now: int, staleAfter: nat): Chat {
    var active := ActiveIn(chat.turns);
    if active.None? || !Stale(chat.turns[active.value], now, staleAfter) then chat
    else
      var k := active.value;
      var turns := chat.turns[k := chat.turns[k].(state := TurnState.Failed, completedAt := Some(now))];
      var m := MessageOf(chat.messages, k, Assistant);
      if m.None? || chat.messages[m.value].delivery != Delivery.Streaming then chat.(turns := turns)
      else
        var failed := chat.messages[m.value].(
          delivery := Delivery.Failed, answerStatus := None, finalizedAt := Some(now));
        chat.(turns := turns, messages := chat.messages[m.value := failed])
  }

  function Begun(chat: Chat, request: Request, now: int, staleAfter: nat): (Chat, Result<TurnHandle, ChatError>) {
    if chat.deleted then (chat, Err(ResourceNotFound))
    else
      var hash, current := RequestHash(request), Recovered(chat, now, staleAfter);
      var existing := ClientIn(current.turns, request.clientId);
      if existing.Some? then
        if current.turns[existing.value].hash != hash then (chat, Err(IdempotencyKeyConflict))
        else (current, Existing(current, existing.value, hash))
      else
        var active := ActiveIn(current.turns);
        if active.Some? then (chat, Err(SessionTurnInProgress(active.value)))
        else
          var k, next := |current.turns|, MaxSequence(current.messages);
          var turn := Turn(request.clientId, hash, TurnState.Streaming, now, Some(now), None);
          var user := Message(k, User, next + 1, Strip(request.query), Committed, None, None);
          var assistant := Message(k, Assistant, next + 2, "", Delivery.Streaming, None, None);
          (current.(turns := current.turns + [turn], messages := current.messages + [user, assistant]),
           Ok(TurnHandle(k, |current.messages|, |current.messages| + 1, hash, false)))
  }

  function Existing(chat: Chat, k: nat, hash: Payload): Result<TurnHandle, ChatError>
    requires k < |chat.turns|
  {
    var user, assistant := MessageOf(chat.messages, k, User), MessageOf(chat.messages, k, Assistant);
    if user.None? || assistant.None? then Err(ResourceNotFound)
    else
      match chat.turns[k].state
      case Completed => Ok(TurnHandle(k, user.value, assistant.value, hash, true))
      case Pending => Err(TurnInProgress(k, assistant.value))
      case Streaming => Err(TurnInProgress(k, assistant.value))
      case Failed => Err(TurnFailed(k))
      case Cancelled => Err(TurnCancelled(k))
  }

  datatype Answer = Answer(text: string, status: Option<string>, citationsValid: bool)

  function Finalized(chat: Chat, handle: TurnHandle, answer: Answer, now: int): (Chat, Result<(), ChatError>) {
    if handle.turn >= |chat.turns| || handle.assistantMessage >= |chat.messages| then (chat, Err(ResourceNotFound))
    else
      var turn, assistant := chat.turns[handle.turn], chat.messages[handle.assistantMessage];
      if turn.state != TurnState.Streaming || assistant.delivery != Delivery.Streaming then (chat, Err(TurnNotActive))
      else if assistant.role != Assistant || !answer.citationsValid then (chat, Err(InvalidCompletion))
      else
        var done := assistant.(
          content := answer.text, delivery := Delivery.Completed, answerStatus := answer.status,
          finalizedAt := Some(now));
        (chat.(turns := chat.turns[handle.turn := turn.(state := TurnState.Completed, completedAt := Some(now))],
               messages := chat.messages[handle.assistantMessage := done]), Ok(()))
  }

  function Terminated(chat: Chat, handle: TurnHandle, cancelled: bool, partial: string, now: int): Chat {
    if handle.turn >= |chat.turns| || handle.assistantMessage >= |chat.messages| || !Active(chat.turns[handle.turn]) then chat
    else
      var turn, assistant := chat.turns[handle.turn], chat.messages[handle.assistantMessage];
      var ended := assistant.(
        delivery := if cancelled then Delivery.Cancelled else Delivery.Failed, answerStatus := None,
        content := if partial != "" then partial else assistant.content, finalizedAt := Some(now));
      chat.(turns := chat.turns[handle.turn := turn.(
                       state := if cancelled then TurnState.Cancelled else TurnState.Failed, completedAt := Some(now))],
            messages := chat.messages[handle.assistantMessage := ended])
  }

  /** A session goes with all its rows, unless a turn is still active after recovery. */
  function Removed(chat: Chat, now: int, staleAfter: nat): (Chat, Result<(), ChatError>) {
    if chat.deleted then (chat, Err(ResourceNotFound))
    else
      var active := ActiveIn(Recovered(chat, now, staleAfter).turns);
      if active.Some? then (chat, Err(SessionBusy(active.value))) else (Chat(true, [], []), Ok(()))
  }

  // ---------- the service ----------

  class ChatHistoryService {
    const staleAfter: nat
    var deleted: bool
    var turns: seq<Turn>
    var messages: seq<Message>

    constructor (staleAfter: nat)
      ensures this.staleAfter == staleAfter && Rows() == Chat(false, [], [])
    {
      this.staleAfter := staleAfter;
      deleted, turns, messages := false, [], [];
    }

    function Rows(): Chat
      reads this
    {
      Chat(deleted, turns, messages)
    }

    method RecoverStale(now: int) returns (recovered: bool)
      modifies this`turns, this`messages
      ensures Rows() == Recovered(old(Rows()), now, staleAfter)
    {
      var active := ActiveIn(turns);
      if active.None? {
        return false;
      }
      var k := active.value;
      var activity := if turns[k].state == TurnState.Streaming then turns[k].startedAt else Some(turns[k].createdAt);
      if activity.None? || activity.value >= now - staleAfter {
        return false;
      }
      turns := turns[k := turns[k].(state := TurnState.Failed, completedAt := Some(now))];
      var m := MessageOf(messages, k, Assistant);
      if m.Some? && messages[m.value].delivery == Delivery.Streaming {
        messages := messages[m.value := messages[m.value].(
          delivery := Delivery.Failed, answerStatus := None, finalizedAt := Some(now))];
      }
      recovered := true;
    }

    method GetSession(now: int) returns (found: Result<(), ChatError>)
      modifies this`turns, this`messages
      ensures Rows() == if old(deleted) then old(Rows()) else Recovered(old(Rows()), now, staleAfter)
      ensures found == if old(deleted) then Err(ResourceNotFound) else Ok(())
    {
      if deleted {
        return Err(ResourceNotFound);
      }
      var _ := RecoverStale(now);
      found := Ok(());
    }

    method DeleteSession(now: int) returns (result: Result<(), ChatError>)
      modifies this
      ensures (Rows(), result) == Removed(old(Rows()), now, staleAfter)
    {
      if deleted {
        return Err(ResourceNotFound);
      }
      var savedTurns, savedMessages := turns, messages;
      var _ := RecoverStale(now);
      var active := ActiveIn(turns);
      if active.Some? {
        turns, messages := savedTurns, savedMessages;
        return Err(SessionBusy(active.value));
      }
      deleted, turns, messages := true, [], [];
      result := Ok(());
    }

    /** A refused request rolls back the recovery made in the same transaction; a resolved one commits it. */
    method BeginTurn(request: Request, now: int) returns (result: Result<TurnHandle, ChatError>)
      modifies this`turns, this`messages
      ensures (Rows(), result) == Begun(old(Rows()), request, now, staleAfter)
    {
      var hash := RequestHash(request);
      if deleted {
        return Err(ResourceNotFound);
      }
      var savedTurns, savedMessages := turns, messages;
      var _ := RecoverStale(now);
      var existing := ClientIn(turns, request.clientId);
      if existing.Some? {
        if turns[existing.value].hash != hash {
          turns, messages := savedTurns, savedMessages;
          return Err(IdempotencyKeyConflict);
        }
        result := ResolveExisting(existing.value, hash);
        return;
      }
      var active := ActiveIn(turns);
      if active.Some? {
        turns, messages := savedTurns, savedMessages;
        return Err(SessionTurnInProgress(active.value));
      }
      var k, next, at := |turns|, MaxSequence(messages), |messages|;
      turns := turns + [Turn(request.clientId, hash, TurnState.Pending, now, Some(now), None)];
      messages := messages + [
        Message(k, User, next + 1, Strip(request.query), Committed, None, None),
        Message(k, Assistant, next + 2, "", Delivery.Streaming, None, None)];
      ghost var before := turns[..k];
      turns := turns[k := turns[k].(state := TurnState.Streaming)];
      assert turns == before + [Turn(request.clientId, hash, TurnState.Streaming, now, Some(now), None)];
      result := Ok(TurnHandle(k, at, at + 1, hash, false));
    }

    method ResolveExisting(k: nat, hash: Payload) returns (result: Result<TurnHandle, ChatError>)
      requires k < |turns|
      ensures result == Existing(Rows(), k, hash)
    {
      var user, assistant := MessageOf(messages, k, User), MessageOf(messages, k, Assistant);
      if user.None? || assistant.None? {
        return Err(ResourceNotFound);
      }
      if turns[k].state == TurnState.Completed {
        return Ok(TurnHandle(k, user.value, assistant.value, hash, true));
      }
      if Active(turns[k]) {
        return Err(TurnInProgress(k, assistant.value));
      }
      result := Err(if turns[k].state == TurnState.Failed then TurnFailed(k) else TurnCancelled(k));
    }

    method FinalizeTurn(handle: TurnHandle, answer: Answer, now: int) returns (result: Result<(), ChatError>)
      modifies this`turns, this`messages
      ensures (Rows(), result) == Finalized(old(Rows()), handle, answer, now)
    {
      if handle.turn >= |turns| || handle.assistantMessage >= |messages| {
        return Err(ResourceNotFound);
      }
      var turn, assistant := turns[handle.turn], messages[handle.assistantMessage];
      if turn.state != TurnState.Streaming || assistant.delivery != Delivery.Streaming {
        return Err(TurnNotActive);
      }
      if assistant.role != Assistant || !answer.citationsValid {
        return Err(InvalidCompletion);
      }
      messages := messages[handle.assistantMessage := assistant.(
        content := answer.text, delivery := Delivery.Completed, answerStatus := answer.status, finalizedAt := Some(now))];
      turns := turns[handle.turn := turn.(state := TurnState.Completed, completedAt := Some(now))];
      result := Ok(());
    }

    method MarkTerminal(handle: TurnHandle, cancelled: bool, partial: string, now: int)
      modifies this`turns, this`messages
      ensures Rows() == Terminated(old(Rows()), handle, cancelled, partial, now)
    {
      if handle.turn >= |turns| || handle.assistantMessage >= |messages| || !Active(turns[handle.turn]) {
        return;
      }
      var assistant := messages[handle.assistantMessage];
      turns := turns[handle.turn := turns[handle.turn].(
        state := if cancelled then TurnState.Cancelled else TurnState.Failed, completedAt := Some(now))];
      assistant := assistant.(delivery := if cancelled then Delivery.Cancelled else Delivery.Failed, answerStatus := None);
      if partial != "" {
        assistant := assistant.(content := partial);
      }
      messages := messages[handle.assistantMessage := assistant.(finalizedAt := Some(now))];
    }
  }

  // ---------- the invariant ----------

  function DeliveryOf(state: TurnState): Delivery {
    match state
    case Pending => Delivery.Streaming
    case Streaming => Delivery.Streaming
    case Completed => Delivery.Completed
    case Failed => Delivery.Failed
    case Cancelled => Delivery.Cancelled
  }

  /** Turn `k` with its question and its answer. */
  ghost predicate PairOk(k: nat, turn: Turn, user: Message, assistant: Message) {
    && turn.state != TurnState.Pending && turn.startedAt.Some?
    && (turn.completedAt.None? <==> Active(turn)) && (assistant.finalizedAt.None? <==> Active(turn))
    && user.turn == k && user.role == User && user.sequence == 2 * k + 1 && user.delivery == Committed
    && assistant.turn == k && assistant.role == Assistant && assistant.sequence == 2 * k + 2
    && assistant.delivery == DeliveryOf(turn.state)
    && (turn.state != TurnState.Completed ==> assistant.answerStatus.None?)
  }

  ghost predicate ChatOk(chat: Chat) {
    && (chat.deleted ==> chat.turns == [])
    && |chat.messages| == 2 * |chat.turns|
    && (forall k | 0 <= k < |chat.turns| :: PairOk(k, chat.turns[k], chat.messages[2 * k], chat.messages[2 * k + 1]))
    && (forall j, k | 0 <= j < k < |chat.turns| :: !(Active(chat.turns[j]) && Active(chat.turns[k])))
    && (forall j, k | 0 <= j < k < |chat.turns| :: chat.turns[j].clientId != chat.turns[k].clientId)
  }

  /** The handle every transaction gives out for a turn. */
  ghost predicate HandleOk(h: TurnHandle) {
    h.userMessage == 2 * h.turn && h.assistantMessage == 2 * h.turn + 1
  }

  /** Messages are numbered 1..2n without gap, questions and answers alternate, and turn k owns 2k+1 and 2k+2
      (counting turns from 0). */
  lemma MessagesAlternate(chat: Chat, m: nat)
    requires ChatOk(chat) && m < |chat.messages|
    ensures chat.messages[m].sequence == m + 1 && chat.messages[m].turn == m / 2
    ensures chat.messages[m].role == if m % 2 == 0 then User else Assistant
  {
    var k := m / 2;
    assert PairOk(k, chat.turns[k], chat.messages[2 * k], chat.messages[2 * k + 1]);
    assert m == 2 * k || m == 2 * k + 1;
  }

  lemma FindMessage(chat: Chat, k: nat)
    requires ChatOk(chat) && k < |chat.turns|
    ensures MessageOf(chat.messages, k, User) == Some(2 * k)
    ensures MessageOf(chat.messages, k, Assistant) == Some(2 * k + 1)
  {
    assert PairOk(k, chat.turns[k], chat.messages[2 * k], chat.messages[2 * k + 1]);
    var user, assistant := MessageOf(chat.messages, k, User), MessageOf(chat.messages, k, Assistant);
    MessagesAlternate(chat, user.value);
    MessagesAlternate(chat, assistant.value);
  }

  lemma {:induction false} LastSequence(messages: seq<Message>)
    requires forall m | 0 <= m < |messages| :: messages[m].sequence == m + 1
    ensures MaxSequence(messages) == |messages|
  {
    if messages != [] { LastSequence(messages[..|messages| - 1]); }
  }

  /** Replacing an active turn and its answer by an ended pair keeps the invariant. */
  lemma EndKeeps(chat: Chat, k: nat, turn: Turn, assistant: Message)
    requires ChatOk(chat) && k < |chat.turns| && turn.clientId == chat.turns[k].clientId && !Active(turn)
    requires PairOk(k, turn, chat.messages[2 * k], assistant)
    ensures ChatOk(chat.(turns := chat.turns[k := turn], messages := chat.messages[2 * k + 1 := assistant]))
  {
    hide PairOk, Active;
    var chat' := chat.(turns := chat.turns[k := turn], messages := chat.messages[2 * k + 1 := assistant]);
    forall j | 0 <= j < |chat.turns| ensures PairOk(j, chat'.turns[j], chat'.messages[2 * j], chat'.messages[2 * j + 1]) {
      assert PairOk(j, chat.turns[j], chat.messages[2 * j], chat.messages[2 * j + 1]);
    }
  }

  /** What one transaction may do to the turns already there: nothing but end active ones, for good. */
  ghost predicate Forward(chat: Chat, chat': Chat) {
    chat'.deleted
    || (&& !chat.deleted && |chat.turns| <= |chat'.turns| && |chat.messages| <= |chat'.messages|
        && forall k | 0 <= k < |chat.turns| :: ForwardTurn(chat, chat', k))
  }

  ghost predicate ForwardTurn(chat: Chat, chat': Chat, k: nat)
    requires k < |chat.turns| && k < |chat'.turns|
  {
    && 2 * k + 1 < |chat.messages| && 2 * k + 1 < |chat'.messages|
    && chat'.turns[k].clientId == chat.turns[k].clientId && chat'.turns[k].hash == chat.turns[k].hash
    && chat'.messages[2 * k] == chat.messages[2 * k]
    && (Active(chat'.turns[k]) ==> Active(chat.turns[k]))
    && (!Active(chat.turns[k]) ==>
          chat'.turns[k] == chat.turns[k] && chat'.messages[2 * k + 1] == chat.messages[2 * k + 1])
  }

  lemma ForwardSame(chat: Chat)
    requires ChatOk(chat)
    ensures Forward(chat, chat)
  {
  }

  lemma ForwardTrans(a: Chat, b: Chat, c: Chat)
    requires Forward(a, b) && Forward(b, c) && (b.deleted ==> c.deleted)
    ensures Forward(a, c)
  {
    if !c.deleted {
      forall k | 0 <= k < |a.turns| ensures ForwardTurn(a, c, k) {
        assert ForwardTurn(a, b, k) && ForwardTurn(b, c, k);
      }
    }
  }

  lemma EndForward(chat: Chat, k: nat, turn: Turn, assistant: Message)
    requires ChatOk(chat) && !chat.deleted && k < |chat.turns| && Active(chat.turns[k])
    requires turn.clientId == chat.turns[k].clientId && turn.hash == chat.turns[k].hash && !Active(turn)
    ensures Forward(chat, chat.(turns := chat.turns[k := turn], messages := chat.messages[2 * k + 1 := assistant]))
  {
  }

  lemma RecoverKeeps(chat: Chat, now: int, staleAfter: nat)
    requires ChatOk(chat)
    ensures ChatOk(Recovered(chat, now, staleAfter)) && Forward(chat, Recovered(chat, now, staleAfter))
    ensures |Recovered(chat, now, staleAfter).turns| == |chat.turns| && Recovered(chat, now, staleAfter).deleted == chat.deleted
  {
    var active := ActiveIn(chat.turns);
    if active.Some? && Stale(chat.turns[active.value], now, staleAfter) {
      var k := active.value;
      FindMessage(chat, k);
      assert PairOk(k, chat.turns[k], chat.messages[2 * k], chat.messages[2 * k + 1]);
      var turn := chat.turns[k].(state := TurnState.Failed, completedAt := Some(now));
      var failed := chat.messages[2 * k + 1].(delivery := Delivery.Failed, answerStatus := None, finalizedAt := Some(now));
      EndKeeps(chat, k, turn, failed);
      EndForward(chat, k, turn, failed);
    } else {
      ForwardSame(chat);
    }
  }

  lemma BeginKeeps(chat: Chat, request: Request, now: int, staleAfter: nat)
    requires ChatOk(chat)
    ensures var (chat', result) := Begun(chat, request, now, staleAfter);
      ChatOk(chat') && Forward(chat, chat') && (result.Ok? ==> HandleOk(result.value) && result.value.turn < |chat'.turns|)
  {
    hide RequestHash, Recovered, ChatOk, Forward;
    var current := Recovered(chat, now, staleAfter);
    RecoverKeeps(chat, now, staleAfter);
    ForwardSame(chat);
    if !chat.deleted {
      var existing := ClientIn(current.turns, request.clientId);
      if existing.Some? {
        FindMessage(current, existing.value);
      } else if ActiveIn(current.turns).None? {
        AppendKeeps(chat, current, request, now);
      }
    }
  }

  lemma AppendKeeps(chat: Chat, current: Chat, request: Request, now: int)
    requires ChatOk(current) && Forward(chat, current) && !current.deleted
    requires ClientIn(current.turns, request.clientId).None? && ActiveIn(current.turns).None?
    ensures var k, next := |current.turns|, MaxSequence(current.messages);
      var turn := Turn(request.clientId, RequestHash(request), TurnState.Streaming, now, Some(now), None);
      var user := Message(k, User, next + 1, Strip(request.query), Committed, None, None);
      var assistant := Message(k, Assistant, next + 2, "", Delivery.Streaming, None, None);
      var chat' := current.(turns := current.turns + [turn], messages := current.messages + [user, assistant]);
      ChatOk(chat') && Forward(chat, chat') && |current.messages| == 2 * k
  {
    hide RequestHash;
    forall m | 0 <= m < |current.messages| ensures current.messages[m].sequence == m + 1 { MessagesAlternate(current, m); }
    LastSequence(current.messages);
    var k := |current.turns|;
    var turn := Turn(request.clientId, RequestHash(request), TurnState.Streaming, now, Some(now), None);
    var user := Message(k, User, 2 * k + 1, Strip(request.query), Committed, None, None);
    var assistant := Message(k, Assistant, 2 * k + 2, "", Delivery.Streaming, None, None);
    var chat' := current.(turns := current.turns + [turn], messages := current.messages + [user, assistant]);
    forall j | 0 <= j < |chat'.turns| ensures PairOk(j, chat'.turns[j], chat'.messages[2 * j], chat'.messages[2 * j + 1]) {
      if j < k { assert PairOk(j, current.turns[j], current.messages[2 * j], current.messages[2 * j + 1]); }
    }
    AppendForward(current, chat');
    ForwardTrans(chat, current, chat');
  }

  /** New rows behind the old ones change no turn. */
  lemma AppendForward(chat: Chat, chat': Chat)
    requires ChatOk(chat) && !chat.deleted && chat.turns <= chat'.turns && chat.messages <= chat'.messages
    ensures Forward(chat, chat')
  {
    hide PairOk, Active;
  }

  lemma FinalizeKeeps(chat: Chat, handle: TurnHandle, answer: Answer, now: int)
    requires ChatOk(chat) && HandleOk(handle)
    ensures ChatOk(Finalized(chat, handle, answer, now).0) && Forward(chat, Finalized(chat, handle, answer, now).0)
  {
    var k := handle.turn;
    ForwardSame(chat);
    if Finalized(chat, handle, answer, now).1.Ok? {
      assert PairOk(k, chat.turns[k], chat.messages[2 * k], chat.messages[2 * k + 1]);
      var turn := chat.turns[k].(state := TurnState.Completed, completedAt := Some(now));
      var done := chat.messages[2 * k + 1].(
        content := answer.text, delivery := Delivery.Completed, answerStatus := answer.status, finalizedAt := Some(now));
      EndKeeps(chat, k, turn, done);
      EndForward(chat, k, turn, done);
    }
  }

  lemma TerminateKeeps(chat: Chat, handle: TurnHandle, cancelled: bool, partial: string, now: int)
    requires ChatOk(chat) && HandleOk(handle)
    ensures var chat' := Terminated(chat, handle, cancelled, partial, now); ChatOk(chat') && Forward(chat, chat')
  {
    var k := handle.turn;
    ForwardSame(chat);
    if k < |chat.turns| && Active(chat.turns[k]) {
      assert PairOk(k, chat.turns[k], chat.messages[2 * k], chat.messages[2 * k + 1]);
      var turn := chat.turns[k].(
        state := if cancelled then TurnState.Cancelled else TurnState.Failed, completedAt := Some(now));
      var assistant := chat.messages[2 * k + 1];
      var ended := assistant.(
        delivery := if cancelled then Delivery.Cancelled else Delivery.Failed, answerStatus := None,
        content := if partial != "" then partial else assistant.content, finalizedAt := Some(now));
      EndKeeps(chat, k, turn, ended);
      EndForward(chat, k, turn, ended);
    }
  }

  // ---------- what a transaction does for its caller ----------

  /** Everything but turn `k` and its answer is as it was. */
  ghost predicate OnlyTurn(chat: Chat, chat': Chat, k: nat) {
    && |chat'.turns| == |chat.turns| && |chat'.messages| == |chat.messages|
    && (forall i | 0 <= i < |chat.turns| && i != k :: chat'.turns[i] == chat.turns[i])
    && (forall i | 0 <= i < |chat.messages| && i != 2 * k + 1 :: chat'.messages[i] == chat.messages[i])
  }

  /** Recovery fails exactly the turns that are active and stale, and keeps what their answers held. */
  lemma RecoverExact(chat: Chat, now: int, staleAfter: nat, k: nat)
    requires ChatOk(chat) && k < |chat.turns|
    ensures var chat' := Recovered(chat, now, staleAfter);
      && |chat'.turns| == |chat.turns| && |chat'.messages| == |chat.messages| == 2 * |chat.turns|
      && chat'.turns[k].state ==
           (if Active(chat.turns[k]) && Stale(chat.turns[k], now, staleAfter) then TurnState.Failed else chat.turns[k].state)
      && chat'.messages[2 * k + 1].delivery == DeliveryOf(chat'.turns[k].state)
      && chat'.messages[2 * k + 1].content == chat.messages[2 * k + 1].content
      && (chat'.turns[k].state == chat.turns[k].state ==>
            chat'.turns[k] == chat.turns[k] && chat'.messages[2 * k + 1] == chat.messages[2 * k + 1])
  {
    var chat', active := Recovered(chat, now, staleAfter), ActiveIn(chat.turns);
    RecoverKeeps(chat, now, staleAfter);
    assert PairOk(k, chat'.turns[k], chat'.messages[2 * k], chat'.messages[2 * k + 1]);
    if active.Some? { FindMessage(chat, active.value); }
  }

  /** Finalizing succeeds exactly on an active turn with valid citations, and then delivers that answer to that turn. */
  lemma FinalizeDelivers(chat: Chat, handle: TurnHandle, answer: Answer, now: int)
    requires ChatOk(chat) && HandleOk(handle) && handle.turn < |chat.turns|
    ensures var (chat', result) := Finalized(chat, handle, answer, now);
      var k := handle.turn;
      && (result.Ok? <==> Active(chat.turns[k]) && answer.citationsValid)
      && (result.Ok? ==>
            && OnlyTurn(chat, chat', k) && chat'.turns[k].state == TurnState.Completed
            && 2 * k + 1 < |chat'.messages| && chat'.messages[2 * k + 1].content == answer.text
            && chat'.messages[2 * k + 1].answerStatus == answer.status)
  {
    var k := handle.turn;
    assert PairOk(k, chat.turns[k], chat.messages[2 * k], chat.messages[2 * k + 1]);
  }

  /** Ending an active turn sets the asked state, and its answer keeps its text unless a partial one is given. */
  lemma TerminateDelivers(chat: Chat, handle: TurnHandle, cancelled: bool, partial: string, now: int)
    requires ChatOk(chat) && HandleOk(handle) && handle.turn < |chat.turns| && Active(chat.turns[handle.turn])
    ensures var chat', k := Terminated(chat, handle, cancelled, partial, now), handle.turn;
      && OnlyTurn(chat, chat', k)
      && chat'.turns[k].state == (if cancelled then TurnState.Cancelled else TurnState.Failed)
      && 2 * k + 1 < |chat'.messages| && chat'.messages[2 * k + 1].delivery == DeliveryOf(chat'.turns[k].state)
      && chat'.messages[2 * k + 1].content == (if partial == "" then chat.messages[2 * k + 1].content else partial)
  {
    var k := handle.turn;
    assert PairOk(k, chat.turns[k], chat.messages[2 * k], chat.messages[2 * k + 1]);
  }

  /** A new turn is the last one, asks the stripped question under its own client id, waits for its answer, and its
      handle names its two messages; all earlier rows are those left by recovery. */
  lemma BeginDelivers(chat: Chat, request: Request, now: int, staleAfter: nat)
    requires ChatOk(chat) && Begun(chat, request, now, staleAfter).1.Ok?
    requires !Begun(chat, request, now, staleAfter).1.value.replayed
    ensures var (chat', result) := Begun(chat, request, now, staleAfter);
      var current, k := Recovered(chat, now, staleAfter), result.value.turn;
      && k == |current.turns| && current.turns == chat'.turns[..k] && |chat'.turns| == k + 1
      && |chat'.messages| == 2 * k + 2 && current.messages == chat'.messages[..2 * k]
      && chat'.turns[k].clientId == request.clientId && chat'.turns[k].hash == RequestHash(request)
      && result.value.userMessage == 2 * k && result.value.assistantMessage == 2 * k + 1
      && chat'.messages[2 * k].content == Strip(request.query) && chat'.messages[2 * k + 1].content == ""
      && chat'.messages[2 * k + 1].delivery == Delivery.Streaming && Active(chat'.turns[k])
  {
    hide Recovered, RequestHash, Strip, MaxSequence;
    var current := Recovered(chat, now, staleAfter);
    RecoverKeeps(chat, now, staleAfter);
    var existing := ClientIn(current.turns, request.clientId);
    if existing.None? { assert |current.messages| == 2 * |current.turns|; }
  }

  // ---------- runs ----------

  datatype Step =
    | Open(now: int)
    | Begin(request: Request, now: int)
    | Finalize(handle: TurnHandle, answer: Answer, now: int)
    | Terminate(handle: TurnHandle, cancelled: bool, partial: string, now: int)
    | Delete(now: int)

  /** A session and the handles given out so far; only those can be finalized or terminated. */
  datatype System = System(chat: Chat, issued: set<TurnHandle>)

  function StepChat(chat: Chat, step: Step, staleAfter: nat): Chat {
    match step
    case Open(now) => if chat.deleted then chat else Recovered(chat, now, staleAfter)
    case Begin(request, now) => Begun(chat, request, now, staleAfter).0
    case Finalize(handle, answer, now) => Finalized(chat, handle, answer, now).0
    case Terminate(handle, cancelled, partial, now) => Terminated(chat, handle, cancelled, partial, now)
    case Delete(now) => Removed(chat, now, staleAfter).0
  }

  predicate Possible(s: System, step: Step) {
    match step
    case Open(_) => true
    case Begin(_, _) => true
    case Finalize(handle, _, _) => handle in s.issued
    case Terminate(handle, _, _, _) => handle in s.issued
    case Delete(_) => true
  }

  function Stepped(s: System, step: Step, staleAfter: nat): System {
    var issued := match step {
      case Begin(request, now) =>
        var result := Begun(s.chat, request, now, staleAfter).1;
        if result.Ok? then {result.value} else {}
      case Open(_) => {}
      case Finalize(_, _, _) => {}
      case Terminate(_, _, _, _) => {}
      case Delete(_) => {}
    };
    System(StepChat(s.chat, step, staleAfter), s.issued + issued)
  }

  predicate Run(s: System, steps: seq<Step>, staleAfter: nat)
    decreases |steps|
  {
    steps == [] || (Possible(s, steps[0]) && Run(Stepped(s, steps[0], staleAfter), steps[1..], staleAfter))
  }

  function After(s: System, steps: seq<Step>, staleAfter: nat): System
    decreases |steps|
  {
    if steps == [] then s else After(Stepped(s, steps[0], staleAfter), steps[1..], staleAfter)
  }

  ghost predicate SystemOk(s: System) {
    ChatOk(s.chat) && forall h | h in s.issued :: HandleOk(h)
  }

  const START := System(Chat(false, [], []), {})

  lemma StepKeeps(s: System, step: Step, staleAfter: nat)
    requires SystemOk(s) && Possible(s, step)
    ensures SystemOk(Stepped(s, step, staleAfter)) && Forward(s.chat, Stepped(s, step, staleAfter).chat)
    ensures s.chat.deleted ==> Stepped(s, step, staleAfter).chat == s.chat
  {
    hide Recovered, Begun, Finalized, Terminated, ChatOk, Forward, HandleOk;
    if s.chat.deleted { DeletedStays(s.chat, step, staleAfter); }
    match step
    case Open(now) => RecoverKeeps(s.chat, now, staleAfter); ForwardSame(s.chat);
    case Begin(request, now) => BeginKeeps(s.chat, request, now, staleAfter);
    case Finalize(handle, answer, now) => FinalizeKeeps(s.chat, handle, answer, now);
    case Terminate(handle, cancelled, partial, now) =>
      TerminateKeeps(s.chat, handle, cancelled, partial, now);
    case Delete(now) => DeleteKeeps(s.chat, now, staleAfter);
  }

  lemma DeleteKeeps(chat: Chat, now: int, staleAfter: nat)
    requires ChatOk(chat)
    ensures ChatOk(Removed(chat, now, staleAfter).0) && Forward(chat, Removed(chat, now, staleAfter).0)
  {
    hide Recovered;
    ForwardSame(chat);
  }

  lemma DeletedStays(chat: Chat, step: Step, staleAfter: nat)
    requires ChatOk(chat) && chat.deleted
    ensures StepChat(chat, step, staleAfter) == chat
  {
  }

  /** Whatever the interleaving of opening, beginning, finalizing, cancelling, recovery and deletion, the invariant
      holds after every run, and what was ended before the run is as it was. */
  lemma {:induction false} RunKeeps(s: System, steps: seq<Step>, staleAfter: nat)
    requires SystemOk(s) && Run(s, steps, staleAfter)
    ensures SystemOk(After(s, steps, staleAfter)) && Forward(s.chat, After(s, steps, staleAfter).chat)
    ensures s.chat.deleted ==> After(s, steps, staleAfter).chat == s.chat
    decreases |steps|
  {
    hide ChatOk, Forward, Stepped, Possible;
    if steps == [] {
      ForwardSame(s.chat);
    } else {
      var next := Stepped(s, steps[0], staleAfter);
      StepKeeps(s, steps[0], staleAfter);
      RunKeeps(next, steps[1..], staleAfter);
      ForwardTrans(s.chat, next.chat, After(s, steps, staleAfter).chat);
    }
  }

  lemma ReachableOk(steps: seq<Step>, staleAfter: nat)
    requires Run(START, steps, staleAfter)
    ensures SystemOk(After(START, steps, staleAfter))
  {
    RunKeeps(START, steps, staleAfter);
  }

  // ---------- from question to answer ----------

  /** From its begin (a) to its end (b, c) a turn keeps its question, and behind its end its answer. */
  lemma TurnKept(a: Chat, b: Chat, c: Chat, end: Chat, k: nat)
    requires Forward(a, b) && Forward(b, c) && Forward(c, end) && !b.deleted && !c.deleted && k < |a.turns|
    requires k < |c.turns| && !Active(c.turns[k])
    ensures 2 * k + 1 < |a.messages| && 2 * k + 1 < |c.messages|
    ensures !end.deleted ==>
      && k < |end.turns| && 2 * k + 1 < |end.messages|
      && end.turns[k] == c.turns[k] && end.turns[k].clientId == a.turns[k].clientId
      && end.messages[2 * k] == a.messages[2 * k] && end.messages[2 * k + 1] == c.messages[2 * k + 1]
  {
    assert ForwardTurn(a, b, k) && ForwardTurn(b, c, k);
    if !end.deleted { assert ForwardTurn(c, end, k); }
  }

  lemma FinalizeOk(chat: Chat, handle: TurnHandle, answer: Answer, now: int)
    requires ChatOk(chat) && Finalized(chat, handle, answer, now).1.Ok?
    ensures handle.turn < |chat.turns| && !chat.deleted && !Finalized(chat, handle, answer, now).0.deleted
  {
  }

  /** The step that begins a turn with its question. */
  lemma Asked(s: System, request: Request, begun: int, staleAfter: nat)
    requires SystemOk(s)
    requires var r := Begun(s.chat, request, begun, staleAfter).1; r.Ok? && !r.value.replayed
    ensures var s1, handle := Stepped(s, Begin(request, begun), staleAfter), Begun(s.chat, request, begun, staleAfter).1.value;
      var k := handle.turn;
      && SystemOk(s1) && HandleOk(handle) && k < |s1.chat.turns| && 2 * k + 1 < |s1.chat.messages|
      && s1.chat.turns[k].clientId == request.clientId && s1.chat.messages[2 * k].content == Strip(request.query)
  {
    hide Begun, ChatOk, Forward, Strip, RequestHash, Recovered, Active;
    BeginDelivers(s.chat, request, begun, staleAfter);
    StepKeeps(s, Begin(request, begun), staleAfter);
  }

  /** The step that finalizes a turn with its answer. */
  lemma Delivered(s2: System, handle: TurnHandle, answer: Answer, now: int, staleAfter: nat)
    requires SystemOk(s2) && HandleOk(handle) && Finalized(s2.chat, handle, answer, now).1.Ok?
    ensures var s3, k := Stepped(s2, Finalize(handle, answer, now), staleAfter), handle.turn;
      && SystemOk(s3) && Forward(s2.chat, s3.chat) && !s2.chat.deleted && !s3.chat.deleted
      && k < |s3.chat.turns| && 2 * k + 1 < |s3.chat.messages|
      && s3.chat.turns[k].state == TurnState.Completed && s3.chat.messages[2 * k + 1].content == answer.text
  {
    hide Finalized, ChatOk, Forward;
    FinalizeOk(s2.chat, handle, answer, now);
    FinalizeKeeps(s2.chat, handle, answer, now);
    FinalizeDelivers(s2.chat, handle, answer, now);
  }

  /** The question of a new turn and the answer it is later finalized with are what the session shows of that turn at
      any time after, whatever happens before, between and behind. */
  lemma AnswerArrives(s: System, request: Request, begun: int, one: seq<Step>, answer: Answer, now: int, two: seq<Step>,
                      staleAfter: nat)
    requires SystemOk(s)
    requires var r := Begun(s.chat, request, begun, staleAfter).1; r.Ok? && !r.value.replayed
    requires var handle, s1 := Begun(s.chat, request, begun, staleAfter).1.value, Stepped(s, Begin(request, begun), staleAfter);
      && Run(s1, one, staleAfter) && Finalized(After(s1, one, staleAfter).chat, handle, answer, now).1.Ok?
      && Run(Stepped(After(s1, one, staleAfter), Finalize(handle, answer, now), staleAfter), two, staleAfter)
    ensures var handle, s1 := Begun(s.chat, request, begun, staleAfter).1.value, Stepped(s, Begin(request, begun), staleAfter);
      var s3 := Stepped(After(s1, one, staleAfter), Finalize(handle, answer, now), staleAfter);
      var chat, k := After(s3, two, staleAfter).chat, handle.turn;
      !chat.deleted ==>
        && k < |chat.turns| && 2 * k + 1 < |chat.messages|
        && chat.turns[k].clientId == request.clientId && chat.turns[k].state == TurnState.Completed
        && chat.messages[2 * k].content == Strip(request.query) && chat.messages[2 * k + 1].content == answer.text
  {
    var handle, s1 := Begun(s.chat, request, begun, staleAfter).1.value, Stepped(s, Begin(request, begun), staleAfter);
    var s2 := After(s1, one, staleAfter);
    var s3 := Stepped(s2, Finalize(handle, answer, now), staleAfter);
    var end, k := After(s3, two, staleAfter), handle.turn;
    hide Begun, Finalized, Stepped, SystemOk, HandleOk, Strip, Run, After, Forward;
    Asked(s, request, begun, staleAfter);
    RunKeeps(s1, one, staleAfter);
    Delivered(s2, handle, answer, now, staleAfter);
    RunKeeps(s3, two, staleAfter);
    TurnKept(s1.chat, s2.chat, s3.chat, end.chat, k);
  }

  // ---------- idempotent requests ----------

  lemma KnownClient(chat: Chat, chat': Chat, k: nat)
    requires ChatOk(chat') && Forward(chat, chat') && !chat'.deleted && k < |chat.turns|
    ensures ForwardTurn(chat, chat', k) && ClientIn(chat'.turns, chat.turns[k].clientId) == Some(k)
  {
    assert ForwardTurn(chat, chat', k);
    hide ForwardTurn, PairOk, Active;
    var found := ClientIn(chat'.turns, chat'.turns[k].clientId);
  }

  /** What a request gets whose client_turn_id turn `k` already has. */
  ghost predicate Replayed(chat: Chat, chat': Chat, k: nat, hash: Payload, result: Result<TurnHandle, ChatError>) {
    && |chat'.turns| == |chat.turns| && |chat'.messages| == |chat.messages| && k < |chat'.turns|
    && if chat.turns[k].hash != hash then result == Err(IdempotencyKeyConflict) && chat' == chat
       else
         match chat'.turns[k].state
         case Completed => result == Ok(TurnHandle(k, 2 * k, 2 * k + 1, hash, true))
         case Failed => result == Err(TurnFailed(k))
         case Cancelled => result == Err(TurnCancelled(k))
         case Streaming => result == Err(TurnInProgress(k, 2 * k + 1))
         case Pending => false
  }

  lemma ReplayNow(chat: Chat, k: nat, request: Request, now: int, staleAfter: nat)
    requires ChatOk(chat) && !chat.deleted && k < |chat.turns| && chat.turns[k].clientId == request.clientId
    ensures var (chat', result) := Begun(chat, request, now, staleAfter);
      Replayed(chat, chat', k, RequestHash(request), result)
  {
    hide Recovered, RequestHash, Active, ChatOk, Forward, ForwardTurn;
    var current := Recovered(chat, now, staleAfter);
    RecoverKeeps(chat, now, staleAfter);
    KnownClient(chat, current, k);
    FindMessage(current, k);
    SameHashKept(chat, current, k);
    StateOk(current, k);
    SameSize(chat, current);
  }

  lemma SameHashKept(chat: Chat, current: Chat, k: nat)
    requires k < |chat.turns| && k < |current.turns| && ForwardTurn(chat, current, k)
    ensures current.turns[k].hash == chat.turns[k].hash
  {
  }

  lemma StateOk(chat: Chat, k: nat)
    requires ChatOk(chat) && k < |chat.turns|
    ensures chat.turns[k].state != TurnState.Pending
  {
    assert PairOk(k, chat.turns[k], chat.messages[2 * k], chat.messages[2 * k + 1]);
  }

  lemma SameSize(chat: Chat, current: Chat)
    requires ChatOk(chat) && ChatOk(current) && |chat.turns| == |current.turns|
    ensures |chat.messages| == |current.messages|
  {
  }

  /** Using a client_turn_id again, at any later time, adds nothing to the session: with another request it is refused
      and changes nothing at all, with the same request it reports on the first turn, and returns that turn's own
      handle once it is completed. */
  lemma RetryAddsNothing(s: System, steps: seq<Step>, k: nat, request: Request, now: int, staleAfter: nat)
    requires SystemOk(s) && Run(s, steps, staleAfter) && k < |s.chat.turns|
    requires s.chat.turns[k].clientId == request.clientId && !After(s, steps, staleAfter).chat.deleted
    ensures var chat := After(s, steps, staleAfter).chat;
      var (chat', result) := Begun(chat, request, now, staleAfter);
      && k < |chat.turns| && chat.turns[k].hash == s.chat.turns[k].hash
      && Replayed(chat, chat', k, RequestHash(request), result)
  {
    hide Begun, RequestHash, ChatOk, Active, Replayed, PairOk;
    var chat := After(s, steps, staleAfter).chat;
    RunKeeps(s, steps, staleAfter);
    KnownClient(s.chat, chat, k);
    ReplayNow(chat, k, request, now, staleAfter);
  }

  /** A new turn is admitted exactly when every turn still active has gone stale. */
  lemma NewTurnAdmitted(chat: Chat, request: Request, now: int, staleAfter: nat)
    requires ChatOk(chat) && !chat.deleted && ClientIn(chat.turns, request.clientId).None?
    ensures Begun(chat, request, now, staleAfter).1.Ok? <==>
      forall k | 0 <= k < |chat.turns| && Active(chat.turns[k]) :: Stale(chat.turns[k], now, staleAfter)
  {
    hide RequestHash, PairOk, MaxSequence, Strip;
    var current := Recovered(chat, now, staleAfter);
    RecoverKeeps(chat, now, staleAfter);
    StillUnknown(chat, current, request.clientId);
    var active := ActiveIn(chat.turns);
    if active.Some? {
      var k := active.value;
      if Stale(chat.turns[k], now, staleAfter) {
        assert forall j | 0 <= j < |current.turns| :: !Active(current.turns[j]);
        assert forall j | 0 <= j < |chat.turns| && Active(chat.turns[j]) :: j == k;
      }
    }
  }

  lemma StillUnknown(chat: Chat, current: Chat, clientId: nat)
    requires ChatOk(chat) && Forward(chat, current) && !current.deleted && |current.turns| == |chat.turns|
    requires ClientIn(chat.turns, clientId).None?
    ensures ClientIn(current.turns, clientId).None?
  {
    hide PairOk, Active;
    forall k | 0 <= k < |chat.turns| ensures current.turns[k].clientId == chat.turns[k].clientId {
      assert ForwardTurn(chat, current, k);
    }
    assert forall k | 0 <= k < |chat.turns| :: chat.turns[k].clientId != clientId;
  }

  // ---------- one ending ----------

  /** Once a turn has ended, no later finalize, cancellation or recovery changes it or its answer. */
  lemma EndedForGood(s: System, steps: seq<Step>, handle: TurnHandle, answer: Answer, cancelled: bool, partial: string,
                     now: int, staleAfter: nat)
    requires SystemOk(s) && Run(s, steps, staleAfter) && HandleOk(handle)
    requires handle.turn < |s.chat.turns| && !Active(s.chat.turns[handle.turn])
    ensures var chat, k := After(s, steps, staleAfter).chat, handle.turn;
      && Finalized(chat, handle, answer, now).0 == chat && Finalized(chat, handle, answer, now).1.Err?
      && Terminated(chat, handle, cancelled, partial, now) == chat
      && (!chat.deleted ==>
            k < |chat.turns| && chat.turns[k] == s.chat.turns[k] &&
            2 * k + 1 < |chat.messages| == 2 * |chat.turns| && chat.messages[2 * k + 1] == s.chat.messages[2 * k + 1])
  {
    var chat := After(s, steps, staleAfter).chat;
    hide Run, After, Stepped, Finalized, Terminated, ChatOk, PairOk, Active;
    RunKeeps(s, steps, staleAfter);
    if !chat.deleted { assert ForwardTurn(s.chat, chat, handle.turn); }
    EndedStays(chat, handle, answer, cancelled, partial, now);
  }

  /** A turn that has ended, or gone with its session, takes no answer and no end. */
  lemma EndedStays(chat: Chat, handle: TurnHandle, answer: Answer, cancelled: bool, partial: string, now: int)
    requires ChatOk(chat) && HandleOk(handle)
    requires chat.deleted || (handle.turn < |chat.turns| && !Active(chat.turns[handle.turn]))
    ensures Finalized(chat, handle, answer, now).0 == chat && Finalized(chat, handle, answer, now).1.Err?
    ensures Terminated(chat, handle, cancelled, partial, now) == chat
    ensures |chat.messages| == 2 * |chat.turns|
  {
    hide PairOk;
  }


  function Ends(chat: Chat, chat': Chat, k: nat): (n: nat)
    ensures n <= 1
  {
    if k < |chat.turns| && k < |chat'.turns| && Active(chat.turns[k]) && !Active(chat'.turns[k]) then 1 else 0
  }

  /** How many steps of a run end turn `k`. */
  function Endings(s: System, steps: seq<Step>, k: nat, staleAfter: nat): nat
    decreases |steps|
  {
    if steps == [] then 0
    else
      var next := Stepped(s, steps[0], staleAfter);
      Ends(s.chat, next.chat, k) + Endings(next, steps[1..], k, staleAfter)
  }

  ghost predicate Over(chat: Chat, k: nat) {
    k < |chat.turns| && !Active(chat.turns[k])
  }

  lemma NewIsActive(s: System, step: Step, staleAfter: nat, k: nat)
    requires SystemOk(s) && |s.chat.turns| <= k < |Stepped(s, step, staleAfter).chat.turns|
    ensures Active(Stepped(s, step, staleAfter).chat.turns[k])
  {
    hide RequestHash, Strip, ActiveIn, ClientIn, MaxSequence, MessageOf;
    match step
    case Begin(request, now) => RecoverKeeps(s.chat, now, staleAfter);
    case Open(now) => RecoverKeeps(s.chat, now, staleAfter);
    case Finalize(_, _, _) =>
    case Terminate(_, _, _, _) =>
    case Delete(now) =>
  }

  lemma StepEnds(s: System, step: Step, k: nat, staleAfter: nat)
    requires SystemOk(s) && Possible(s, step)
    ensures var next := Stepped(s, step, staleAfter);
      && (Over(s.chat, k) || next.chat.deleted ==> Ends(s.chat, next.chat, k) == 0)
      && (!next.chat.deleted ==> (Over(next.chat, k) <==> Over(s.chat, k) || Ends(s.chat, next.chat, k) == 1))
  {
    hide Stepped, Possible, Active, PairOk;
    var next := Stepped(s, step, staleAfter);
    StepKeeps(s, step, staleAfter);
    if !next.chat.deleted && k < |s.chat.turns| {
      assert ForwardTurn(s.chat, next.chat, k);
    } else if k < |next.chat.turns| {
      if !next.chat.deleted { NewIsActive(s, step, staleAfter, k); }
    }
  }

  /** Under every interleaving a turn ends at most once, and exactly once when it is there and over at the end of a
      run it was not over at the start of. */
  lemma {:induction false} EndsOnce(s: System, steps: seq<Step>, k: nat, staleAfter: nat)
    requires SystemOk(s) && Run(s, steps, staleAfter)
    ensures var chat, n := After(s, steps, staleAfter).chat, Endings(s, steps, k, staleAfter);
      && n <= 1 && (Over(s.chat, k) || s.chat.deleted ==> n == 0)
      && (!chat.deleted ==> n == if Over(chat, k) && !Over(s.chat, k) then 1 else 0)
    decreases |steps|
  {
    hide SystemOk, Forward, Stepped, Possible, Over, Ends;
    if steps != [] {
      var next := Stepped(s, steps[0], staleAfter);
      StepKeeps(s, steps[0], staleAfter);
      StepEnds(s, steps[0], k, staleAfter);
      EndsOnce(next, steps[1..], k, staleAfter);
      RunKeeps(next, steps[1..], staleAfter);
      if Over(next.chat, k) { OverStays(next.chat, After(s, steps, staleAfter).chat, k); }
    }
  }

  lemma OverStays(chat: Chat, chat': Chat, k: nat)
    requires Forward(chat, chat') && Over(chat, k)
    ensures chat'.deleted || Over(chat', k)
  {
    if !chat'.deleted { assert ForwardTurn(chat, chat', k); }
  }
}
