/** backend/server.js: the per-session conversation histories behind
    `/api/chat`, `/api/reset` and `/api/history/:sessionID`. The language
    model and the tools that `askClaude` uses are parameters. */
module Sessions {
  import opened Common
  import Agent

  /** The answer of `/api/chat`: the reply with the session it went to, a 400
      for a missing message, or a 500 carrying what `askClaude` threw. */
  datatype ChatReply =
    | Replied(response: string, sessionID: Value)
    | BadRequest(error: string)
    | ServerError(error: string, details: string)

  datatype HistoryReply = HistoryReply(sessionID: string, messageCount: nat, history: seq<Agent.Message>)

  const DefaultSession := "default"

  /** The destructuring default `sessionID = "default"`: it applies only when
      the field is absent, so `null` or `""` are session keys of their own. */
  function SessionKey(sessionID: Value): (key: Value)
    ensures sessionID.Undefined? ==> key == Str(DefaultSession)
    ensures !sessionID.Undefined? ==> key == sessionID
  {
    if sessionID.Undefined? then Str(DefaultSession) else sessionID
  }

  function UserTurn(message: Value): Agent.Message {
    Agent.Message("user", Agent.Plain(message))
  }

  function AssistantTurn(response: string): Agent.Message {
    Agent.Message("assistant", Agent.Plain(Str(response)))
  }

  /** `conversations.get(key) || []`. */
  function Stored(conversations: map<Value, seq<Agent.Message>>, key: Value): seq<Agent.Message> {
    if key in conversations then conversations[key] else []
  }

  /** The history route: a missing path parameter reads the default session;
      an unknown session has an empty history. */
  function HistoryOf(conversations: map<Value, seq<Agent.Message>>, param: string): (r: HistoryReply)
    ensures r.sessionID == (if param == "" then DefaultSession else param)
    ensures r.messageCount == |r.history|
    ensures Str(r.sessionID) !in conversations ==> r.messageCount == 0
    ensures Str(r.sessionID) in conversations ==> r.history == conversations[Str(r.sessionID)]
  {
    var sessionID := if param == "" then DefaultSession else param;
    var history := Stored(conversations, Str(sessionID));
    HistoryReply(sessionID, |history|, history)
  }

  /** Writing a key twice leaves the second value. */
  lemma UpdateTwice<K, V>(m: map<K, V>, k: K, a: V, b: V)
    ensures m[k := a][k := b] == m[k := b]
  {
  }

  /** The module-level `conversations` map. */
  class SessionStore {
    var conversations: map<Value, seq<Agent.Message>>

    constructor ()
      ensures conversations == map[]
    {
      conversations := map[];
    }

    /** `POST /api/chat` with body fields `message` and `sessionID`. The
        stored history array is pushed in place, so when `askClaude` throws an
        existing session keeps the new user turn; a new session is only
        stored once the reply has come back. */
    method Chat(message: Value, sessionID: Value,
                model: seq<Agent.Message> -> Result<Agent.Response, string>, tools: Agent.Tools)
      returns (r: ChatReply)
      modifies this
      ensures !Truthy(message) ==> r == BadRequest("Message is required") && conversations == old(conversations)
      ensures Truthy(message) ==>
        var key := SessionKey(sessionID);
        var asked := Stored(old(conversations), key) + [UserTurn(message)];
        var reply := Agent.Converse(asked, model, tools, 0).reply;
        && (reply.Ok? ==>
              && r == Replied(reply.value, key)
              && conversations == old(conversations)[key := asked + [AssistantTurn(reply.value)]])
        && (reply.Err? ==>
              && r == ServerError("Internal Server Error", reply.error)
              && conversations == if key in old(conversations) then old(conversations)[key := asked]
                                  else old(conversations))
      ensures forall other :: other != SessionKey(sessionID) ==>
        Stored(conversations, other) == Stored(old(conversations), other)
      ensures r.Replied? ==>
        |Stored(conversations, r.sessionID)| == |Stored(old(conversations), r.sessionID)| + 2
    {
      var key := SessionKey(sessionID);
      if !Truthy(message) {
        return BadRequest("Message is required");
      }
      var conversationHistory := Stored(conversations, key);
      conversationHistory := conversationHistory + [UserTurn(message)];
      ghost var asked := conversationHistory;
      if key in conversations {
        conversations := conversations[key := conversationHistory];
      }
      var response := Agent.AskClaude(conversationHistory, model, tools);
      if response.Err? {
        return ServerError("Internal Server Error", response.error);
      }
      conversationHistory := conversationHistory + [AssistantTurn(response.value)];
      conversations := conversations[key := conversationHistory];
      assert conversations == old(conversations)[key := conversationHistory] by {
        if key in old(conversations) {
          UpdateTwice(old(conversations), key, asked, conversationHistory);
        }
      }
      return Replied(response.value, key);
    }

    /** `POST /api/reset`: forgets the session. */
    method Reset(sessionID: Value) returns (message: string, key: Value)
      modifies this
      ensures key == SessionKey(sessionID)
      ensures message == "Conversation history cleared"
      ensures conversations == old(conversations) - {key}
      ensures Stored(conversations, key) == []
      ensures forall other :: other != key ==> Stored(conversations, other) == Stored(old(conversations), other)
    {
      key := SessionKey(sessionID);
      conversations := conversations - {key};
      message := "Conversation history cleared";
    }

    /** `GET /api/history/:sessionID`. */
    function History(param: string): (r: HistoryReply)
      reads this
    {
      HistoryOf(conversations, param)
    }
  }
}
