/** Properties of whole runs of requests against the session table. */
module Properties {
  import opened Transcripts
  import opened Handlers

  /** The turns a run of successful chats appends: for each exchange
      (message, reply), a user turn then an assistant turn. */
  function Conversation(exchanges: seq<(string, string)>): (turns: seq<Turn>)
    ensures |turns| == 2 * |exchanges|
    ensures forall j :: 0 <= j < |exchanges| ==>
      turns[2 * j] == Turn(User, exchanges[j].0) && turns[2 * j + 1] == Turn(Assistant, exchanges[j].1)
    decreases |exchanges|
  {
    if exchanges == [] then []
    else [Turn(User, exchanges[0].0), Turn(Assistant, exchanges[0].1)] + Conversation(exchanges[1..])
  }

  /** One chat request per exchange on session `id`, each answered with the exchange's reply. */
  function Chats(id: string, exchanges: seq<(string, string)>): seq<Request>
    decreases |exchanges|
  {
    if exchanges == [] then []
    else [ChatRequest(id, Some(exchanges[0].0), Ok(exchanges[0].1))] + Chats(id, exchanges[1..])
  }

  predicate NonEmptyMessages(exchanges: seq<(string, string)>) {
    forall j :: 0 <= j < |exchanges| ==> exchanges[j].0 != ""
  }

  lemma ExtendsTransitive(t: Table, u: Table, v: Table)
    requires Extends(t, u) && Extends(u, v)
    ensures Extends(t, v)
  {
  }

  /** Transcripts are append-only: as long as generated ids are fresh, any run
      of requests keeps every session and every turn already stored, in place. */
  lemma {:induction false} RunAppendOnly(t: Table, rs: seq<Request>)
    requires FreshRun(t, rs)
    ensures Extends(t, Run(t, rs))
    decreases |rs|
  {
    if rs != [] {
      var u := Handle(t, rs[0]).table;
      RunAppendOnly(u, rs[1..]);
      ExtendsTransitive(t, u, Run(u, rs[1..]));
    }
  }

  /** One successful chat with a non-empty message, as a single table update. */
  lemma ChatSucceeds(t: Table, id: string, message: string, reply: string)
    requires message != ""
    ensures Handle(t, ChatRequest(id, Some(message), Ok(reply))).table
      == t[id := TranscriptOf(t, id) + [Turn(User, message), Turn(Assistant, reply)]]
  {
    var pending := TranscriptOf(t, id) + [Turn(User, message)];
    assert pending + [Turn(Assistant, reply)] == TranscriptOf(t, id) + [Turn(User, message), Turn(Assistant, reply)];
    assert Handle(t, ChatRequest(id, Some(message), Ok(reply))).table == t[id := pending + [Turn(Assistant, reply)]];
  }

  /** One chat request per exchange, each step made explicit. */
  lemma ChatsStep(t: Table, id: string, exchanges: seq<(string, string)>)
    requires exchanges != [] && exchanges[0].0 != ""
    ensures Run(t, Chats(id, exchanges))
      == Run(t[id := TranscriptOf(t, id) + [Turn(User, exchanges[0].0), Turn(Assistant, exchanges[0].1)]], Chats(id, exchanges[1..]))
  {
    var rs := Chats(id, exchanges);
    assert rs[0] == ChatRequest(id, Some(exchanges[0].0), Ok(exchanges[0].1));
    assert rs[1..] == Chats(id, exchanges[1..]);
    ChatSucceeds(t, id, exchanges[0].0, exchanges[0].1);
  }

  lemma NonEmptyMessagesTail(exchanges: seq<(string, string)>)
    requires exchanges != [] && NonEmptyMessages(exchanges)
    ensures NonEmptyMessages(exchanges[1..])
  {
  }

  /** Successful chats with non-empty messages append exactly their
      conversation to session `id`. */
  lemma {:induction false} SuccessfulChats(t: Table, id: string, exchanges: seq<(string, string)>)
    requires NonEmptyMessages(exchanges)
    ensures TranscriptOf(Run(t, Chats(id, exchanges)), id) == TranscriptOf(t, id) + Conversation(exchanges)
    decreases |exchanges|
  {
    if exchanges != [] {
      var rest := exchanges[1..];
      var first := [Turn(User, exchanges[0].0), Turn(Assistant, exchanges[0].1)];
      var u := t[id := TranscriptOf(t, id) + first];
      var w := Run(u, Chats(id, rest));
      assert Run(t, Chats(id, exchanges)) == w by {
        ChatsStep(t, id, exchanges);
      }
      assert TranscriptOf(w, id) == TranscriptOf(u, id) + Conversation(rest) by {
        NonEmptyMessagesTail(exchanges);
        SuccessfulChats(u, id, rest);
      }
      calc {
        TranscriptOf(u, id) + Conversation(rest);
        (TranscriptOf(t, id) + first) + Conversation(rest);
        TranscriptOf(t, id) + (first + Conversation(rest));
        TranscriptOf(t, id) + Conversation(exchanges);
      }
    }
  }

  /** Chats on session `id` create at most that session and leave every
      other session as it was. */
  lemma {:induction false} ChatsTouchOnlyTheirSession(t: Table, id: string, exchanges: seq<(string, string)>)
    requires NonEmptyMessages(exchanges)
    ensures Run(t, Chats(id, exchanges)).Keys <= t.Keys + {id}
    ensures exchanges != [] ==> id in Run(t, Chats(id, exchanges))
    ensures forall k :: k in t && k != id ==> Run(t, Chats(id, exchanges))[k] == t[k]
    decreases |exchanges|
  {
    if exchanges != [] {
      var u := t[id := TranscriptOf(t, id) + [Turn(User, exchanges[0].0), Turn(Assistant, exchanges[0].1)]];
      ChatsStep(t, id, exchanges);
      NonEmptyMessagesTail(exchanges);
      ChatsTouchOnlyTheirSession(u, id, exchanges[1..]);
    }
  }

  /** A session created by new-session and then sent N successful chats holds
      2 + 2N turns: the seed, then user and assistant turns alternating. */
  lemma NewSessionThenChats(t: Table, id: string, exchanges: seq<(string, string)>)
    requires id !in t
    requires NonEmptyMessages(exchanges)
    ensures id in Run(t, [NewSessionRequest(id)] + Chats(id, exchanges))
    ensures var transcript := Run(t, [NewSessionRequest(id)] + Chats(id, exchanges))[id];
      && |transcript| == 2 + 2 * |exchanges|
      && transcript[..2] == Seed
      && forall j :: 0 <= j < |exchanges| ==>
           transcript[2 + 2 * j] == Turn(User, exchanges[j].0)
           && transcript[3 + 2 * j] == Turn(Assistant, exchanges[j].1)
  {
    var rs := [NewSessionRequest(id)] + Chats(id, exchanges);
    var u := NewSession(t, id).table;
    assert rs[1..] == Chats(id, exchanges);
    assert Run(t, rs) == Run(u, Chats(id, exchanges));
    SuccessfulChats(u, id, exchanges);
    assert TranscriptOf(u, id) == Seed;
  }

  predicate AllUploads(rs: seq<Request>) {
    forall i :: 0 <= i < |rs| ==> rs[i].UploadRequest?
  }

  /** Image uploads never create a session, whatever ids they name. */
  lemma {:induction false} UploadsKeepSessions(t: Table, rs: seq<Request>)
    requires AllUploads(rs)
    ensures Run(t, rs).Keys == t.Keys
    decreases |rs|
  {
    if rs != [] {
      assert AllUploads(rs[1..]) by {
        forall i | 0 <= i < |rs| - 1 ensures rs[1..][i].UploadRequest? {
          assert rs[1..][i] == rs[i + 1];
        }
      }
      UploadsKeepSessions(Handle(t, rs[0]).table, rs[1..]);
    }
  }

  /** A request the handler rejects with 400: a chat without a truthy
      message, or an upload without a file. */
  predicate Rejected(r: Request) {
    || (r.ChatRequest? && !Truthy(r.message))
    || (r.UploadRequest? && !r.hasFile)
  }

  /** Rejected requests leave the whole table as it was. */
  lemma {:induction false} RejectedRequestsChangeNothing(t: Table, rs: seq<Request>)
    requires forall i :: 0 <= i < |rs| ==> Rejected(rs[i])
    ensures Run(t, rs) == t
    decreases |rs|
  {
    if rs != [] {
      assert Handle(t, rs[0]).table == t;
      assert forall i :: 0 <= i < |rs| - 1 ==> Rejected(rs[1..][i]) by {
        forall i | 0 <= i < |rs| - 1 ensures Rejected(rs[1..][i]) {
          assert rs[1..][i] == rs[i + 1];
        }
      }
      RejectedRequestsChangeNothing(t, rs[1..]);
    }
  }

  /** Because a failed chat keeps its user turn, a retry that succeeds leaves
      two user turns in a row: the transcript no longer alternates. */
  lemma FailedThenRetried(t: Table, id: string, message: string, reply: string)
    requires message != ""
    ensures var rs := [ChatRequest(id, Some(message), Fail), ChatRequest(id, Some(message), Ok(reply))];
      Run(t, rs)[id] == TranscriptOf(t, id) + [Turn(User, message), Turn(User, message), Turn(Assistant, reply)]
  {
    var rs := [ChatRequest(id, Some(message), Fail), ChatRequest(id, Some(message), Ok(reply))];
    var u := t[id := TranscriptOf(t, id) + [Turn(User, message)]];
    var v := u[id := TranscriptOf(u, id) + [Turn(User, message), Turn(Assistant, reply)]];
    assert Run(t, rs) == Run(u, [rs[1]]) by {
      assert rs[1..] == [rs[1]];
    }
    assert Run(u, [rs[1]]) == v by {
      ChatSucceeds(u, id, message, reply);
      assert [rs[1]][1..] == [];
    }
  }
}
