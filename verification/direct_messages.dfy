/**
  The POST handler of pages/api/socket/global-direct-messages/index.ts: a
  guard chain that turns a request into a status code, a JSON body and at
  most one broadcast on the conversation's channel.

  The database and the session are inputs (`Backend`): the profile lookup,
  the table that findFirst searches, and the row that create stores, each of
  which may throw. The broadcast is not performed but returned, as the event
  name and payload that io.emit would be given.
*/
module DirectMessages {
  import opened Wrappers
  import opened JsValues

  datatype Profile = Profile(id: string, name: string, imageUrl: string)

  /** A row of globalConversation: its id and its two participants. */
  datatype Conversation = Conversation(id: string, profileOneId: string, profileTwoId: string)

  /** The outcome of an awaited call that may throw. */
  datatype Fallible<T> = Returns(value: T) | Throws

  /** `req.body`, when it is an object (`Fields`) or null/undefined (`Missing`). */
  datatype Body = Fields(content: Json, fileUrl: Json) | Missing

  datatype Request = Request(httpMethod: string, conversationId: Option<string>, body: Body)

  /** What the database assigns to a created row. */
  datatype Stored = Stored(id: string, createdAt: int)

  datatype Backend = Backend(
    profile: Fallible<Option<Profile>>,        // currentProfilePages(req)
    conversations: Fallible<seq<Conversation>>, // the table findFirst searches
    store: Fallible<Stored>,                   // globalDirectMessage.create
    hasIo: bool                                // res.socket.server.io is set
  )

  /** A created globalDirectMessage with its profile included. */
  datatype Message = Message(id: string, content: Json, fileUrl: Json, conversationId: string,
                             profileId: string, profile: Profile, createdAt: int)

  datatype Member = Member(id: string, profileId: string, profile: Profile)

  /** transformedMessage: the message's own fields plus `member`. */
  datatype Payload = Payload(message: Message, member: Member)

  datatype Emit = Emit(event: string, payload: Payload)

  datatype ResponseBody = Error(error: string) | Created(payload: Payload)

  datatype Response = Response(status: int, body: ResponseBody, emitted: Option<Emit>)

  // ---------------------------------------------------------------------------
  // The channel key
  // ---------------------------------------------------------------------------

  const KeyPrefix: string := "chat:"
  const KeySuffix: string := ":messages"

  /** The event name under which a conversation's messages are broadcast. */
  function ChannelKey(conversationId: string): (key: string)
    ensures |key| == |KeyPrefix| + |conversationId| + |KeySuffix|
    ensures key[..|KeyPrefix|] == KeyPrefix && key[|key| - |KeySuffix|..] == KeySuffix
    ensures key[|KeyPrefix|..|key| - |KeySuffix|] == conversationId
  {
    KeyPrefix + conversationId + KeySuffix
  }

  /** The conversation a channel key addresses, if it is one. */
  function ConversationOfKey(key: string): Option<string>
  {
    if |key| >= |KeyPrefix| + |KeySuffix| && key[..|KeyPrefix|] == KeyPrefix
       && key[|key| - |KeySuffix|..] == KeySuffix
    then Some(key[|KeyPrefix|..|key| - |KeySuffix|])
    else None
  }

  /** Every conversation id is recovered from its key. */
  lemma KeyRoundTrip(conversationId: string)
    ensures ConversationOfKey(ChannelKey(conversationId)) == Some(conversationId)
  {
  }

  /** Every string that reads as a key is the key of what it reads as. */
  lemma KeyParseRoundTrip(key: string)
    ensures ConversationOfKey(key).Some? ==> ChannelKey(ConversationOfKey(key).value) == key
  {
  }

  /** Distinct conversations broadcast on distinct channels. */
  lemma KeyInjective(a: string, b: string)
    ensures ChannelKey(a) == ChannelKey(b) <==> a == b
  {
  }

  // ---------------------------------------------------------------------------
  // The participant lookup
  // ---------------------------------------------------------------------------

  predicate Participant(c: Conversation, profileId: string)
  {
    c.profileOneId == profileId || c.profileTwoId == profileId
  }

  /** findFirst: the first row with this id that has the profile as one of its
      two participants. */
  function FindConversation(table: seq<Conversation>, id: string, profileId: string): (r: Option<Conversation>)
    ensures r.Some? ==> r.value in table && r.value.id == id && Participant(r.value, profileId)
    ensures r.None? ==> forall c :: c in table ==> !(c.id == id && Participant(c, profileId))
  {
    if table == [] then None
    else if table[0].id == id && Participant(table[0], profileId) then Some(table[0])
    else FindConversation(table[1..], id, profileId)
  }

  // ---------------------------------------------------------------------------
  // The handler
  // ---------------------------------------------------------------------------

  /** `!conversationId` is false: present and not the empty string. */
  predicate IdGiven(q: Option<string>)
  {
    q.Some? && q.value != ""
  }

  /** The message as create returns it and as the handler re-shapes it. */
  function Transform(m: Message): (p: Payload)
    ensures p.message == m
    ensures p.member.id == m.profileId && p.member.profileId == m.profileId && p.member.profile == m.profile
  {
    Payload(m, Member(m.profileId, m.profileId, m.profile))
  }

  function Fail(status: int, error: string): Response
  {
    Response(status, Error(error), None)
  }

  /** The catch block. */
  function InternalError(): Response
  {
    Fail(500, "Internal Error")
  }

  /** The content check of the handler passes: `content?.trim()` does not
      throw, and it is non-empty or fileUrl is truthy. */
  predicate ContentOrFile(content: Json, fileUrl: Json)
  {
    var t := OptionalTrim(content);
    !t.TypeError? && !((t.NoValue? || t.text == "") && !Truthy(fileUrl))
  }

  /** Every check before the participant lookup passes. */
  predicate Accepted(req: Request, be: Backend)
  {
    req.httpMethod == "POST" && be.profile.Returns? && be.profile.value.Some? &&
    req.body.Fields? && IdGiven(req.conversationId) &&
    ContentOrFile(req.body.content, req.body.fileUrl)
  }

  /** Some conversation with this id has the profile as a participant. */
  predicate HasParticipant(table: seq<Conversation>, id: string, profileId: string)
  {
    exists c :: c in table && c.id == id && Participant(c, profileId)
  }

  /** The handler after its input checks: the participant lookup, the insert,
      the transform, the broadcast and the 200. */
  function Deliver(profile: Profile, conversationId: string, content: Json, fileUrl: Json, be: Backend): (r: Response)
    ensures r.status in {200, 404, 500}
    ensures r.status == 404 <==> be.conversations.Returns? && !HasParticipant(be.conversations.value, conversationId, profile.id)
    ensures r.status == 500 <==>
              be.conversations.Throws? ||
              (HasParticipant(be.conversations.value, conversationId, profile.id) && be.store.Throws?)
    ensures r.status != 200 ==> r.body.Error? && r.emitted == None
    ensures r.status == 200 ==>
              r.body.Created? &&
              r.body.payload.message.conversationId == conversationId &&
              r.body.payload.message.profileId == profile.id &&
              r.body.payload.member.id == r.body.payload.member.profileId == r.body.payload.message.profileId &&
              r.emitted == (if be.hasIo then Some(Emit(ChannelKey(conversationId), r.body.payload)) else None)
    ensures r.status == 200 ==>
              be.store.Returns? &&
              r.body.payload.message.id == be.store.value.id &&
              r.body.payload.message.createdAt == be.store.value.createdAt &&
              r.body.payload.message.content == content &&
              r.body.payload.message.fileUrl == fileUrl &&
              r.body.payload.message.profile == profile &&
              r.body.payload.member.profile == profile
  {
    if be.conversations.Throws? then InternalError()
    else if FindConversation(be.conversations.value, conversationId, profile.id).None? then
      Fail(404, "Conversation not found")
    else if be.store.Throws? then InternalError()
    else
      var message := Message(be.store.value.id, content, fileUrl,
                             conversationId, profile.id, profile, be.store.value.createdAt);
      var payload := Transform(message);
      Response(200, Created(payload),
               if be.hasIo then Some(Emit(ChannelKey(conversationId), payload)) else None)
  }

  function Handle(req: Request, be: Backend): (r: Response)
    ensures r.status in {200, 400, 401, 404, 405, 500}
    ensures r.status == 405 <==> req.httpMethod != "POST"
    ensures r.status != 200 ==> r.body.Error? && r.emitted == None
    ensures r.status == 200 ==>
              Accepted(req, be) &&
              r.body.Created? &&
              r.body.payload.message.conversationId == req.conversationId.value &&
              r.body.payload.message.profileId == be.profile.value.value.id &&
              r.body.payload.member.id == r.body.payload.member.profileId == r.body.payload.message.profileId &&
              r.emitted == (if be.hasIo then Some(Emit(ChannelKey(req.conversationId.value), r.body.payload)) else None)
    ensures r.status == 200 ==>
              be.store.Returns? &&
              r.body.payload.message.id == be.store.value.id &&
              r.body.payload.message.createdAt == be.store.value.createdAt &&
              r.body.payload.message.content == req.body.content &&
              r.body.payload.message.fileUrl == req.body.fileUrl &&
              r.body.payload.message.profile == be.profile.value.value &&
              r.body.payload.member.profile == be.profile.value.value
  {
    if req.httpMethod != "POST" then Fail(405, "Method not allowed")
    else if be.profile.Throws? then InternalError()
    else if req.body.Missing? then InternalError()  // destructuring a null or undefined body throws
    else if be.profile.value.None? then Fail(401, "Unauthorized")
    else if !IdGiven(req.conversationId) then Fail(400, "Conversation ID missing")
    else if OptionalTrim(req.body.content).TypeError? then InternalError()
    else if !ContentOrFile(req.body.content, req.body.fileUrl) then Fail(400, "Content or file is required")
    else Deliver(be.profile.value.value, req.conversationId.value, req.body.content, req.body.fileUrl, be)
  }

  // ---------------------------------------------------------------------------
  // The guard order
  // ---------------------------------------------------------------------------

  /** A method other than POST is refused before anything is looked up. */
  lemma MethodCheckedFirst(req: Request, be: Backend)
    requires req.httpMethod != "POST"
    ensures Handle(req, be) == Response(405, Error("Method not allowed"), None)
  {
  }

  /** A POST without a profile is 401, whatever its conversation id and body
      fields. */
  lemma ProfileCheckedBeforeInput(req: Request, be: Backend)
    requires req.httpMethod == "POST" && be.profile == Returns(None) && req.body.Fields?
    ensures Handle(req, be) == Response(401, Error("Unauthorized"), None)
  {
  }

  /** Throws before the 401 check are 500 even without a profile: a failing
      profile lookup, or a null body whose fields are destructured. */
  lemma EarlyThrowsPrecedeProfileCheck(req: Request, be: Backend)
    requires req.httpMethod == "POST" && (be.profile.Throws? || req.body.Missing?)
    ensures Handle(req, be) == Response(500, Error("Internal Error"), None)
  {
  }

  /** An absent or empty conversation id is 400, whatever the body fields. */
  lemma ConversationIdCheckedBeforeContent(req: Request, be: Backend)
    requires req.httpMethod == "POST" && be.profile.Returns? && be.profile.value.Some? && req.body.Fields?
    requires !IdGiven(req.conversationId)
    ensures Handle(req, be) == Response(400, Error("Conversation ID missing"), None)
  {
  }

  /** Once the earlier guards pass, the request is 400 exactly when the content
      is absent or white space only and there is no file; content that is
      neither a string, null nor undefined makes `content?.trim()` throw. */
  lemma ContentRule(req: Request, be: Backend)
    requires req.httpMethod == "POST" && be.profile.Returns? && be.profile.value.Some?
    requires req.body.Fields? && IdGiven(req.conversationId)
    ensures OptionalTrim(req.body.content).TypeError? ==> Handle(req, be).status == 500
    ensures !OptionalTrim(req.body.content).TypeError? ==>
              (Handle(req, be).status == 400 <==>
                 (req.body.content.Undefined? || req.body.content.Null? ||
                  (req.body.content.Str? && Blank(req.body.content.s))) &&
                 !Truthy(req.body.fileUrl))
  {
  }

  /** For a request that passes the input checks (non-blank content, a
      file, or both), the lookup decides: 404, with nothing created or
      broadcast, exactly when no conversation with that id has the profile as
      a participant. */
  lemma ParticipantRule(req: Request, be: Backend)
    requires Accepted(req, be) && be.conversations.Returns?
    ensures Handle(req, be).status == 404 <==>
              forall c :: c in be.conversations.value ==>
                !(c.id == req.conversationId.value && Participant(c, be.profile.value.value.id))
    ensures Handle(req, be).status == 404 ==> Handle(req, be).emitted == None
  {
  }

  /** A request that passes the input checks, from a participant, whose
      message is stored, is 200; the message is broadcast once on its
      conversation's key when the socket server is there, and the 200 is the
      same without it. */
  lemma SuccessBroadcastsOnce(req: Request, be: Backend, c: Conversation)
    requires Accepted(req, be)
    requires be.conversations.Returns? && c in be.conversations.value
    requires c.id == req.conversationId.value && Participant(c, be.profile.value.value.id)
    requires be.store.Returns?
    ensures Handle(req, be).status == 200
    ensures Handle(req, be).emitted.Some? <==> be.hasIo
    ensures Handle(req, be).body == Handle(req, be.(hasIo := !be.hasIo)).body
  {
  }

  /** A request refused with 4xx never reaches create or the broadcast: its
      response is the same whatever create would do and whether or not the
      socket server is there. */
  lemma RejectionCreatesNothing(req: Request, be: Backend, store: Fallible<Stored>, hasIo: bool)
    requires Handle(req, be).status in {400, 401, 404, 405}
    ensures Handle(req, be.(store := store, hasIo := hasIo)) == Handle(req, be)
  {
  }

  /** A throwing findFirst or create, after the input checks, is 500 with no
      broadcast. */
  lemma LateThrowsAre500(req: Request, be: Backend)
    requires Accepted(req, be)
    requires be.conversations.Throws? ||
             (HasParticipant(be.conversations.value, req.conversationId.value, be.profile.value.value.id) && be.store.Throws?)
    ensures Handle(req, be) == Response(500, Error("Internal Error"), None)
  {
  }
}
