/** Turns, transcripts, responses and the fixed texts of the adoption-advisor
    chat backend. A transcript is the ordered list of `{ role, content }`
    entries the server keeps per session; the table maps session ids to them. */
module Transcripts {

  datatype Option<+T> = None | Some(value: T)

  datatype Role = System | User | Assistant

  /** One `{ role, content }` entry of a transcript. */
  datatype Turn = Turn(role: Role, content: string)

  /** The module-level `sessions` object: session id to transcript. */
  type Table = map<string, seq<Turn>>

  /** What the completion service did with one request: a reply text, or any
      failure (transport error, non-2xx status, malformed body). */
  datatype Outcome = Ok(reply: string) | Fail

  /** The JSON body of a response: exactly one of the three fields. */
  datatype Body = SessionId(sessionId: string) | BotMessage(botMessage: string) | Error(error: string)

  datatype Response = Response(status: int, body: Body)

  /** Every response the server sends: 200 with a success field, or 400/500
      with an `error` field and nothing else. */
  predicate WellFormed(r: Response) {
    && r.status in {200, 400, 500}
    && (r.status == 200 <==> !r.body.Error?)
  }

  /** The system persona every new session starts with, split across lines. */
  const Persona: string :=
    "This GPT serves as an adoption advisor " +
    "for users considering bringing animals " +
    "into their lives. It supports open " +
    "conversations, answering user questions " +
    "about adopting animals and helping " +
    "guide them through factors to consider " +
    "in their choice. By gathering " +
    "information about user preferences " +
    "(such as living environment, lifestyle, " +
    "size, and care requirements), this GPT " +
    "will recommend animals suitable for " +
    "adoption based on the specifics the " +
    "user provides. The GPT also presents " +
    "animal profiles in a standardized " +
    "format that includes details like " +
    "species, age, specific needs, " +
    "temperament, and adaptability to the " +
    "user\U{2019}s situation. If users " +
    "upload a photo of an animal, the GPT " +
    "offers guidance on the breed and " +
    "characteristics. The tone is " +
    "supportive, informed, and practical, " +
    "aiming to assist users in making " +
    "thoughtful adoption decisions."

  /** The assistant welcome that follows the persona. */
  const Welcome: string :=
    "Bonjour ! Je suis votre conseiller en " +
    "adoption d'animaux. Posez-moi vos " +
    "questions pour obtenir des conseils sur " +
    "l'adoption de votre futur compagnon !"

  const ImagePrompt: string := "Que peux-tu me dire sur cet animal ?"

  const DataUriPrefix: string := "data:image/jpeg;base64,"

  const MessageRequired: string := "Message is required"

  const ImageRequired: string := "Image is required"

  const TryAgainLater: string := "An error occurred. Please try again later."

  /** The two turns a session created by new-session starts with. */
  const Seed: seq<Turn> := [Turn(System, Persona), Turn(Assistant, Welcome)]

  /** The transcript of `id`, or the empty one if the id is unknown. */
  function TranscriptOf(t: Table, id: string): seq<Turn> {
    if id in t then t[id] else []
  }

  /** The image turn's content: the base64 text behind a JPEG data-URI prefix. */
  function DataUri(base64: string): (uri: string)
    ensures |uri| == |DataUriPrefix| + |base64|
    ensures uri[..|DataUriPrefix|] == DataUriPrefix && uri[|DataUriPrefix|..] == base64
  {
    DataUriPrefix + base64
  }

  /** Inverse of DataUri: the base64 text of a JPEG data URI, if it is one. */
  function ImagePayload(uri: string): (payload: Option<string>)
    ensures payload.Some? <==> DataUriPrefix <= uri
    ensures payload.Some? ==> DataUri(payload.value) == uri
  {
    if DataUriPrefix <= uri then Some(uri[|DataUriPrefix|..]) else None
  }

  /** The fixed two-turn request upload-image sends upstream: the prompt,
      then the image, both as user turns; the session's history is not part of it. */
  function ImageRequest(base64: string): (request: seq<Turn>)
    ensures |request| == 2
    ensures forall i :: 0 <= i < |request| ==> request[i].role == User
    ensures request[0].content == ImagePrompt
    ensures ImagePayload(request[1].content) == Some(base64)
  {
    [Turn(User, ImagePrompt), Turn(User, DataUri(base64))]
  }
}
