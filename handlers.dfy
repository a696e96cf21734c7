/** The three route handlers of index.js as functions of the session table:
    each gives the new table, the response, and the message list sent to the
    completion service (None when no upstream call is made). The completion
    call itself is an Outcome supplied by the caller. */
module Handlers {
  import opened Transcripts

  datatype Step = Step(table: Table, response: Response, upstream: Option<seq<Turn>>)

  /** JavaScript truthiness of the `message` body field: absent and "" are falsy. */
  predicate Truthy(message: Option<string>) {
    message.Some? && message.value != ""
  }

  /** `t` grows into `u` append-only: no session disappears and every
      transcript of `t` is a prefix of the same session's transcript in `u`. */
  ghost predicate Extends(t: Table, u: Table) {
    forall k :: k in t ==> k in u && t[k] <= u[k]
  }

  /** POST /api/new-session with `freshId` as the generated id. The entry is
      assigned, so a reused id would be overwritten. */
  function NewSession(t: Table, freshId: string): (s: Step)
    ensures s.table.Keys == t.Keys + {freshId}
    ensures |s.table[freshId]| == 2
    ensures s.table[freshId][0] == Turn(System, Persona) && s.table[freshId][1] == Turn(Assistant, Welcome)
    ensures forall k :: k in t && k != freshId ==> s.table[k] == t[k]
    ensures freshId !in t ==> Extends(t, s.table)
    ensures s.response == Response(200, SessionId(freshId)) && s.upstream == None
  {
    Step(t[freshId := Seed], Response(200, SessionId(freshId)), None)
  }

  /** POST /api/chat/:id with body field `message`. */
  function Chat(t: Table, id: string, message: Option<string>, outcome: Outcome): (s: Step)
    // a falsy message is rejected before anything is touched
    ensures !Truthy(message) <==> s.upstream.None?
    ensures !Truthy(message) ==> s.table == t && s.response == Response(400, Error(MessageRequired))
    // otherwise the user turn is stored first, the whole transcript is sent,
    // and the reply is stored after it only on success: no rollback on failure
    ensures Truthy(message) ==>
      && s.upstream == Some(TranscriptOf(t, id) + [Turn(User, message.value)])
      && id in s.table
      && s.table[id] == s.upstream.value + (if outcome.Ok? then [Turn(Assistant, outcome.reply)] else [])
      && (forall k :: k in s.table && k != id ==> k in t && s.table[k] == t[k])
    ensures Truthy(message) ==>
      s.response == if outcome.Ok? then Response(200, BotMessage(outcome.reply)) else Response(500, Error(TryAgainLater))
    ensures Extends(t, s.table)
    ensures WellFormed(s.response)
  {
    if !Truthy(message) then
      Step(t, Response(400, Error(MessageRequired)), None)
    else
      var pending := TranscriptOf(t, id) + [Turn(User, message.value)];
      match outcome
      case Ok(reply) =>
        Step(t[id := pending + [Turn(Assistant, reply)]], Response(200, BotMessage(reply)), Some(pending))
      case Fail =>
        Step(t[id := pending], Response(500, Error(TryAgainLater)), Some(pending))
  }

  /** POST /api/upload-image/:id; `hasFile` says whether multer stored a file,
      `base64` is that file's content in base64. */
  function UploadImage(t: Table, id: string, hasFile: bool, base64: string, outcome: Outcome): (s: Step)
    ensures !hasFile <==> s.upstream.None?
    ensures !hasFile ==> s.table == t && s.response == Response(400, Error(ImageRequired))
    // the request ignores the session's history
    ensures hasFile ==> s.upstream == Some(ImageRequest(base64))
    ensures hasFile && id in t && outcome.Ok? ==>
      && s.table == t[id := t[id] + [Turn(Assistant, outcome.reply)]]
      && s.response == Response(200, BotMessage(outcome.reply))
    // an unknown id makes the push throw inside the try: 500, nothing stored
    ensures hasFile && (id !in t || outcome.Fail?) ==>
      s.table == t && s.response == Response(500, Error(TryAgainLater))
    ensures s.table.Keys == t.Keys
    ensures Extends(t, s.table)
    ensures WellFormed(s.response)
  {
    if !hasFile then
      Step(t, Response(400, Error(ImageRequired)), None)
    else
      var request := ImageRequest(base64);
      match outcome
      case Fail =>
        Step(t, Response(500, Error(TryAgainLater)), Some(request))
      case Ok(reply) =>
        if id !in t then
          Step(t, Response(500, Error(TryAgainLater)), Some(request))
        else
          Step(t[id := t[id] + [Turn(Assistant, reply)]], Response(200, BotMessage(reply)), Some(request))
  }

  /** One HTTP request to one of the three handlers, with its external inputs. */
  datatype Request =
    | NewSessionRequest(freshId: string)
    | ChatRequest(id: string, message: Option<string>, outcome: Outcome)
    | UploadRequest(id: string, hasFile: bool, base64: string, outcome: Outcome)

  /** The generated id of a new-session request is not yet in the table. */
  predicate Fresh(t: Table, r: Request) {
    r.NewSessionRequest? ==> r.freshId !in t
  }

  function Handle(t: Table, r: Request): (s: Step)
    ensures t.Keys <= s.table.Keys
    ensures Fresh(t, r) ==> Extends(t, s.table)
    ensures WellFormed(s.response)
  {
    match r
    case NewSessionRequest(freshId) => NewSession(t, freshId)
    case ChatRequest(id, message, outcome) => Chat(t, id, message, outcome)
    case UploadRequest(id, hasFile, base64, outcome) => UploadImage(t, id, hasFile, base64, outcome)
  }

  /** The table after handling `rs` one after another, each to completion. */
  function Run(t: Table, rs: seq<Request>): (u: Table)
    ensures t.Keys <= u.Keys
    decreases |rs|
  {
    if rs == [] then t else Run(Handle(t, rs[0]).table, rs[1..])
  }

  /** Every new-session request in `rs` gets an id unused at that point. */
  predicate FreshRun(t: Table, rs: seq<Request>)
    decreases |rs|
  {
    rs == [] || (Fresh(t, rs[0]) && FreshRun(Handle(t, rs[0]).table, rs[1..]))
  }
}
