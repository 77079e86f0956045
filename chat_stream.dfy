/**
 * The chat routes (backend/app/api/v1/chat.py) once the agent team and the
 * database are given: the server-sent event sequence of the streaming
 * endpoint, which replays the team's answer three words at a time, the
 * conversation record it saves, the `sub` check on WebSocket tokens, and the
 * empty-message guard of the WebSocket loop.
 */
module ChatStream {

  import opened Wrappers
  import opened Text

  /** Words per streamed chunk (`chunk_size`). */
  const ChunkSize: nat := 3

  /** The reply sent when the team fails. */
  const StreamErrorText: string := "Desculpe, ocorreu um erro. Tente novamente."

  /** The concatenation of a sequence of strings. */
  function Concat(parts: seq<string>): string {
    if parts == [] then "" else Concat(parts[..|parts| - 1]) + parts[|parts| - 1]
  }

  /** The words of chunk `k`: `words[3k : 3k + 3]`. */
  function Group(words: seq<string>, k: nat): (g: seq<string>)
    requires ChunkSize * k < |words|
    ensures 1 <= |g| <= ChunkSize
  {
    var lo := ChunkSize * k;
    var hi := if lo + ChunkSize < |words| then lo + ChunkSize else |words|;
    words[lo..hi]
  }

  /** Chunk `k` as streamed: its words joined by spaces, with a leading space after the first chunk. */
  function ChunkText(words: seq<string>, k: nat): string
    requires ChunkSize * k < |words|
  {
    (if k > 0 then " " else "") + Join(Group(words, k), ' ')
  }

  /**
   * The chunking loop of `event_generator`: split the answer at single
   * spaces and send every three words as one chunk. There are
   * `ceil(words / 3)` chunks, and together they spell the answer exactly.
   */
  method ChunkResponse(text: string) returns (chunks: seq<string>)
    ensures var words := Split(text, ' ');
            && |chunks| == (|words| + ChunkSize - 1) / ChunkSize
            && forall k :: 0 <= k < |chunks| ==> ChunkSize * k < |words| && chunks[k] == ChunkText(words, k)
    ensures Concat(chunks) == text
  {
    var words := Split(text, ' ');
    chunks := [];
    var i := 0;
    while i < |words|
      invariant i == ChunkSize * |chunks|
      invariant |chunks| == 0 || ChunkSize * (|chunks| - 1) < |words|
      invariant forall k :: 0 <= k < |chunks| ==> ChunkSize * k < |words| && chunks[k] == ChunkText(words, k)
      invariant Concat(chunks) == Join(words[..if i < |words| then i else |words|], ' ')
      decreases |words| - i
    {
      var chunk := Join(words[i..if i + ChunkSize < |words| then i + ChunkSize else |words|], ' ');
      if i > 0 {
        chunk := " " + chunk;
      }
      assert chunk == ChunkText(words, |chunks|);
      ChunkLoopStep(words, chunks, chunk);
      chunks := chunks + [chunk];
      i := i + ChunkSize;
    }
    JoinSplit(text, ' ');
    assert words[..|words|] == words;
  }

  /** One turn of the chunking loop keeps its invariants. */
  lemma ChunkLoopStep(words: seq<string>, chunks: seq<string>, chunk: string)
    requires ChunkSize * |chunks| < |words|
    requires forall k :: 0 <= k < |chunks| ==> ChunkSize * k < |words| && chunks[k] == ChunkText(words, k)
    requires Concat(chunks) == Join(words[..ChunkSize * |chunks|], ' ')
    requires chunk == ChunkText(words, |chunks|)
    ensures forall k :: 0 <= k < |chunks + [chunk]| ==> ChunkSize * k < |words| && (chunks + [chunk])[k] == ChunkText(words, k)
    ensures var next := ChunkSize * (|chunks| + 1);
            Concat(chunks + [chunk]) == Join(words[..if next < |words| then next else |words|], ' ')
  {
    ChunkStep(words, |chunks|);
    ConcatAppend(chunks, chunk);
  }

  lemma ConcatAppend(parts: seq<string>, p: string)
    ensures Concat(parts + [p]) == Concat(parts) + p
  {
    assert (parts + [p])[..|parts|] == parts;
  }

  /** Appending chunk `k` extends the joined prefix by that chunk's words. */
  lemma ChunkStep(words: seq<string>, k: nat)
    requires ChunkSize * k < |words|
    ensures var lo := ChunkSize * k;
            var hi := if lo + ChunkSize < |words| then lo + ChunkSize else |words|;
            Join(words[..hi], ' ') == (if k == 0 then "" else Join(words[..lo], ' ')) + ChunkText(words, k)
  {
    var lo := ChunkSize * k;
    var hi := if lo + ChunkSize < |words| then lo + ChunkSize else |words|;
    if k == 0 {
      assert words[..hi] == Group(words, 0);
    } else {
      JoinAppend(words[..lo], words[lo..hi], ' ');
      assert words[..lo] + words[lo..hi] == words[..hi];
    }
  }

  /** One server-sent event of the streaming endpoint. */
  datatype Event =
    | Typing
    | Chunk(content: string)
    | Done(conversationId: string, agentType: string)
    | Error(content: string)

  /** A value or, when it is empty (falsy), a default: `x or default`. */
  function OrDefault(s: string, default: string): (r: string)
    ensures s != "" ==> r == s
    ensures s == "" ==> r == default
  {
    if s != "" then s else default
  }

  /**
   * `event_generator`: a typing event, then either the chunks of the team's
   * answer followed by a done event naming the conversation (the request's,
   * or `freshId` for a new one) and the agent type ("master" by default), or
   * a single error event when the team raises (`answer` is `None`).
   */
  method StreamEvents(answer: Option<string>, conversationId: string, freshId: string, agentType: string)
    returns (events: seq<Event>)
    ensures |events| >= 2 && events[0] == Typing
    ensures answer.None? ==> events == [Typing, Error(StreamErrorText)]
    ensures answer.Some? ==>
              && events[|events| - 1] == Done(OrDefault(conversationId, freshId), OrDefault(agentType, "master"))
              && (forall j :: 1 <= j < |events| - 1 ==> events[j].Chunk?)
              && Concat(ChunkContents(events[1..|events| - 1])) == answer.value
  {
    events := [Typing];
    if answer.None? {
      events := events + [Error(StreamErrorText)];
      return;
    }
    var cid := OrDefault(conversationId, freshId);
    var chunks := ChunkResponse(answer.value);
    var body := seq(|chunks|, j requires 0 <= j < |chunks| => Chunk(chunks[j]));
    assert ChunkContents(body) == chunks;
    events := events + body + [Done(cid, OrDefault(agentType, "master"))];
    assert events[1..|events| - 1] == body;
  }

  /** The contents of a run of chunk events. */
  function ChunkContents(events: seq<Event>): (r: seq<string>)
    ensures |r| == |events|
    ensures forall j :: 0 <= j < |events| && events[j].Chunk? ==> r[j] == events[j].content
  {
    seq(|events|, j requires 0 <= j < |events| => if events[j].Chunk? then events[j].content else "")
  }

  /** One entry of a saved conversation. */
  datatype Message = Message(role: string, content: string)

  /** How the conversation is saved: appended to the existing record, or a new record. */
  datatype SaveAction =
    | UpdateMessages(messages: seq<Message>)
    | InsertConversation(id: string, userId: string, agentType: string, messages: seq<Message>)

  /**
   * The save step after streaming: the stored messages (none for a new
   * conversation) with the user's message and the answer appended.
   */
  method SaveConversation(existing: Option<seq<Message>>, conversationId: string, userId: string,
                          agentType: string, userMessage: string, answer: string)
    returns (action: SaveAction)
    ensures existing.Some? <==> action.UpdateMessages?
    ensures action.InsertConversation? ==>
              action.id == conversationId && action.userId == userId && action.agentType == OrDefault(agentType, "master")
    ensures var prior := existing.GetOr([]);
            && |action.messages| == |prior| + 2
            && action.messages[..|prior|] == prior
            && action.messages[|prior|] == Message("user", userMessage)
            && action.messages[|prior| + 1] == Message("assistant", answer)
  {
    var messages := existing.GetOr([]);
    messages := messages + [Message("user", userMessage)];
    messages := messages + [Message("assistant", answer)];
    if existing.Some? {
      action := UpdateMessages(messages);
    } else {
      action := InsertConversation(conversationId, userId, OrDefault(agentType, "master"), messages);
    }
  }

  /** The claims of a decoded token; each may be absent or null. */
  datatype Claims = Claims(sub: Field<string>, email: Field<string>, role: Field<string>)

  /** The user a WebSocket token authenticates. */
  datatype WsUser = WsUser(id: string, email: Option<string>, role: Option<string>)

  /**
   * `_authenticate_ws_token`: with a JWT secret configured the verified
   * claims are used, without one the unverified claims; `None` for a claim
   * set stands for a `JWTError`. A token without a non-empty `sub` does not
   * authenticate.
   */
  function AuthenticateWsToken(secret: string, verified: Option<Claims>, unverified: Option<Claims>): (r: Option<WsUser>)
    ensures var claims := if secret != "" then verified else unverified;
            r.Some? <==> claims.Some? && claims.value.sub.Present? && claims.value.sub.value != ""
    ensures r.Some? ==> var claims := if secret != "" then verified.value else unverified.value;
            r.value.id == claims.sub.value
            && r.value.email == claims.email.Get("")
            && r.value.role == claims.role.Get("authenticated")
  {
    var claims := if secret != "" then verified else unverified;
    match claims
    case None => None
    case Some(c) =>
      if c.sub.Present? && c.sub.value != "" then Some(WsUser(c.sub.value, c.email.Get(""), c.role.Get("authenticated")))
      else None
  }

  /** Without a `sub` claim no token authenticates, verified or not. */
  lemma NoSubNoUser(secret: string, verified: Option<Claims>, unverified: Option<Claims>)
    requires verified.Some? ==> !verified.value.sub.Present?
    requires unverified.Some? ==> !unverified.value.sub.Present?
    ensures AuthenticateWsToken(secret, verified, unverified).None?
  {
  }

  /** What the WebSocket loop does with one authenticated message. */
  datatype MessageCheck =
    | EmptyMessage        // error reply, nothing sent to the team
    | NotText             // `None.strip()` raises
    | ToTeam(text: string)

  /** `message_data.get("message", "").strip()` and the emptiness guard. */
  function CheckMessage(message: Field<string>): (r: MessageCheck)
    ensures message.Null? <==> r.NotText?
    ensures message.Missing? ==> r == EmptyMessage
    ensures r.ToTeam? ==> message.Present? && r.text == Strip(message.value) && r.text != ""
  {
    match message
    case Null => NotText
    case Missing => EmptyMessage
    case Present(s) => if Strip(s) == "" then EmptyMessage else ToTeam(Strip(s))
  }

  /** A blank or whitespace-only message is refused, and anything else goes to the team stripped. */
  lemma CheckMessageBlank(s: string)
    ensures CheckMessage(Present(s)) == EmptyMessage <==> AllSpace(s)
    ensures !AllSpace(s) ==> CheckMessage(Present(s)) == ToTeam(Strip(s))
  {
    StripSpec(s);
  }
}
