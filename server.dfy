/** The server's in-memory session store: the `sessions` object that the
    three route handlers of index.js update in place. Each method is one
    handler run to completion; its effect is the matching Handlers function. */
module Server {
  import opened Transcripts
  import Handlers

  class SessionStore {
    var sessions: Table

    /** The store at start-up: no sessions. */
    constructor ()
      ensures sessions == map[]
    {
      sessions := map[];
    }

    /** POST /api/new-session; `freshId` stands for the generated uuid. */
    method NewSession(freshId: string) returns (resp: Response)
      requires freshId !in sessions
      modifies this
      ensures Handlers.NewSession(old(sessions), freshId) == Handlers.Step(sessions, resp, None)
      ensures Handlers.Extends(old(sessions), sessions)
    {
      sessions := sessions[freshId := Seed];
      resp := Response(200, SessionId(freshId));
    }

    /** POST /api/chat/:id. `sent` is the message list given to the
        completion service, which answered with `outcome`. */
    method Chat(id: string, message: Option<string>, outcome: Outcome) returns (resp: Response, sent: Option<seq<Turn>>)
      modifies this
      ensures Handlers.Chat(old(sessions), id, message, outcome) == Handlers.Step(sessions, resp, sent)
      ensures Handlers.Extends(old(sessions), sessions)
    {
      if !Handlers.Truthy(message) {
        return Response(400, Error(MessageRequired)), None;
      }
      if id !in sessions {
        sessions := sessions[id := []];
      }
      sessions := sessions[id := sessions[id] + [Turn(User, message.value)]];
      sent := Some(sessions[id]);
      match outcome {
        case Ok(reply) =>
          sessions := sessions[id := sessions[id] + [Turn(Assistant, reply)]];
          resp := Response(200, BotMessage(reply));
        case Fail =>
          resp := Response(500, Error(TryAgainLater));
      }
    }

    /** POST /api/upload-image/:id. `hasFile` says whether a file was
        uploaded, `base64` is its encoded content. */
    method UploadImage(id: string, hasFile: bool, base64: string, outcome: Outcome) returns (resp: Response, sent: Option<seq<Turn>>)
      modifies this
      ensures Handlers.UploadImage(old(sessions), id, hasFile, base64, outcome) == Handlers.Step(sessions, resp, sent)
      ensures sessions.Keys == old(sessions).Keys
    {
      if !hasFile {
        return Response(400, Error(ImageRequired)), None;
      }
      sent := Some(ImageRequest(base64));
      match outcome {
        case Ok(reply) =>
          if id in sessions {
            sessions := sessions[id := sessions[id] + [Turn(Assistant, reply)]];
            resp := Response(200, BotMessage(reply));
          } else {
            // pushing onto a missing entry throws inside the try
            resp := Response(500, Error(TryAgainLater));
          }
        case Fail =>
          resp := Response(500, Error(TryAgainLater));
      }
    }
  }

  /** Create a session, then chat "Bonjour" and get `reply` back. */
  method NewSessionThenBonjour(freshId: string, reply: string) returns (transcript: seq<Turn>, sent: Option<seq<Turn>>, resp: Response)
    ensures |transcript| == 4
    ensures transcript[0] == Turn(System, Persona) && transcript[1] == Turn(Assistant, Welcome)
    ensures transcript[2] == Turn(User, "Bonjour") && transcript[3] == Turn(Assistant, reply)
    ensures sent == Some(Seed + [Turn(User, "Bonjour")])
    ensures resp == Response(200, BotMessage(reply))
  {
    var store := new SessionStore();
    var _ := store.NewSession(freshId);
    resp, sent := store.Chat(freshId, Some("Bonjour"), Ok(reply));
    transcript := store.sessions[freshId];
  }

  /** Chat "Bonjour" to the never-created id "xyz" and get `reply` back. */
  method ChatToUnknownSession(reply: string) returns (transcript: seq<Turn>, sent: Option<seq<Turn>>, resp: Response)
    ensures transcript == [Turn(User, "Bonjour"), Turn(Assistant, reply)]
    ensures sent == Some([Turn(User, "Bonjour")])
    ensures resp == Response(200, BotMessage(reply))
  {
    var store := new SessionStore();
    resp, sent := store.Chat("xyz", Some("Bonjour"), Ok(reply));
    assert [] + [Turn(User, "Bonjour")] == [Turn(User, "Bonjour")];
    transcript := store.sessions["xyz"];
  }

  /** Upload an image to the never-created id "xyz" while the completion
      service answers `reply`: the answer is lost and no session appears. */
  method UploadToUnknownSession(base64: string, reply: string) returns (ids: set<string>, sent: Option<seq<Turn>>, resp: Response)
    ensures ids == {}
    ensures sent == Some(ImageRequest(base64))
    ensures resp == Response(500, Error(TryAgainLater))
  {
    var store := new SessionStore();
    resp, sent := store.UploadImage("xyz", true, base64, Ok(reply));
    ids := store.sessions.Keys;
  }
}
