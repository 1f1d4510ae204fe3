/**
 * The handler's wire protocol, with JSON encoding abstracted away: inbound
 * envelopes (a `type` tag plus string fields), the table that routes a tag
 * to its branch, the outbound messages each branch broadcasts, and the
 * outbox that records every send.
 */
module Protocol {
  import opened Wrappers
  import opened Registry

  /** An inbound text message: its raw text and the string map it parses to. */
  datatype Envelope = Envelope(text: string, fields: map<string, string>)

  /** `jsonMessage.get(key)`: None stands for Java's null. */
  function Field(env: Envelope, key: string): (v: Option<string>)
    ensures v.Some? <==> key in env.fields
    ensures v.Some? ==> env.fields[key] == v.value
  {
    if key in env.fields then Some(env.fields[key]) else None
  }

  /** The `type` tags the dispatcher recognises, in the order it tests them. */
  datatype Tag =
    | UserIn | Chat | Draw | ChangeMax | ChangeAdmin | ChangeGameType
    | PlayerCnt | GameMode | GameTime | GameTurn | RoundTime | GameStart
    | TimeStart | NextRound | RoundOver | GameOver
  {
    /** Branches that only answer: they change neither the participant records nor the room information. */
    predicate AnswersOnly()
    {
      Chat? || Draw? || ChangeMax? || PlayerCnt? || GameMode? || GameTime? || NextRound? || RoundOver?
    }

  }

  function TagName(t: Tag): string
  {
    match t
    case UserIn => "userIn"
    case Chat => "chat"
    case Draw => "draw"
    case ChangeMax => "changeMax"
    case ChangeAdmin => "changeAdmin"
    case ChangeGameType => "changeGameType"
    case PlayerCnt => "playerCnt"
    case GameMode => "gameMode"
    case GameTime => "gameTime"
    case GameTurn => "gameTurn"
    case RoundTime => "roundTime"
    case GameStart => "gameStart"
    case TimeStart => "timeStart"
    case NextRound => "nextRound"
    case RoundOver => "roundOver"
    case GameOver => "gameOver"
  }

  /** The `if / else if` chain on `type`: a tag's branch, or None when no branch matches. */
  function Route(typeName: string): (t: Option<Tag>)
    ensures t.Some? ==> TagName(t.value) == typeName
    ensures t.None? ==> forall tag: Tag :: TagName(tag) != typeName
  {
    if typeName == "userIn" then Some(UserIn)
    else if typeName == "chat" then Some(Chat)
    else if typeName == "draw" then Some(Draw)
    else if typeName == "changeMax" then Some(ChangeMax)
    else if typeName == "changeAdmin" then Some(ChangeAdmin)
    else if typeName == "changeGameType" then Some(ChangeGameType)
    else if typeName == "playerCnt" then Some(PlayerCnt)
    else if typeName == "gameMode" then Some(GameMode)
    else if typeName == "gameTime" then Some(GameTime)
    else if typeName == "gameTurn" then Some(GameTurn)
    else if typeName == "roundTime" then Some(RoundTime)
    else if typeName == "gameStart" then Some(GameStart)
    else if typeName == "timeStart" then Some(TimeStart)
    else if typeName == "nextRound" then Some(NextRound)
    else if typeName == "roundOver" then Some(RoundOver)
    else if typeName == "gameOver" then Some(GameOver)
    else None
  }

  /** Every tag routes to its own branch, so no two tags share a name. */
  lemma RouteTagName(t: Tag)
    ensures Route(TagName(t)) == Some(t)
  {
  }

  /** The branch an envelope selects; None both for a missing `type` and for an unknown one. */
  function TypeTag(env: Envelope): Option<Tag>
  {
    match Field(env, "type")
    case None => None
    case Some(name) => Route(name)
  }

  /** A value the handler stores in `roomInfoMap`. */
  datatype Value = IntVal(i: int) | StrVal(s: string)

  /** Records returned by the room, game and auth services (their contents are theirs). */
  datatype UserDto = UserDto(userIdx: int, userNickname: string)
  datatype RoomDto = RoomDto(
    status: string, message: string, roomNow: int, roomMax: int, maxRound: int,
    gameCategory: string, roomStatus: string, adminUserIdx: int, nowRound: int)
  datatype JoinReply = JoinReply(summary: string)
  datatype GameRequest = GameRequest(gameCategory: Value, maxRound: Value, roomIdx: string)
  datatype GameReply = GameReply(summary: string)
  /** One entry of a round summary's user list: a user's index and score. */
  datatype UserScore = UserScore(userIdx: int, userScore: int)
  datatype RoundReply = RoundReply(summary: string, userList: seq<UserScore>)

  /** What a branch sends; each variant is one JSON shape of the source. */
  datatype Message =
    | JoinRoom(reply: JoinReply)                   // userIn: joinRoom's response
    | Verbatim(text: string)                       // chat, draw: the inbound text, unchanged
    | Failure(status: string, message: string)     // changeMax rejected: {status, message}
    | RoomUpdate(tag: string, room: RoomDto)       // changeMax / changeAdmin accepted
    | BareNickname(nickname: string)               // changeAdmin rejected: the requester's nickname
    | GameTypeChanged(changeGameType: string)      // {type: changeGameType, changeGameType}
    | PlayerCount(playerCnt: int)                  // {type: playerCnt, playerCnt}
    | GameModeIs(gameMode: string)                 // {type: gameMode, gameMode}
    | GameTimeIs(roundTime: int)                   // {type: gameTime, roundTime}
    | GameTurnIs(gameTurn: int)                    // {type: gameTurn, gameTurn}
    | GameInfo(game: GameReply)                    // gameStart, nextRound: the game service's reply
    | RoundInfo(tag: string, round: RoundReply)    // roundOver: the round summary, typed "gameDto"
    | TimeTick(message: string)                    // countdown: {type: timeStart, message: seconds}
    | GameOverRanking(userIds: seq<int>)           // gameOver: the ranked user ids
    | Departure(nickname: string)                  // close: {type: chat, author: admin, "<nickname> left"}

  /** One `sendMessage`: who received what. */
  datatype Delivery = Delivery(to: Session, message: Message)

  /** Sending `m` to each target in turn. */
  function Deliveries(targets: seq<Session>, m: Message): (ds: seq<Delivery>)
    ensures |ds| == |targets|
    ensures forall i :: 0 <= i < |ds| ==> ds[i] == Delivery(targets[i], m)
  {
    if targets == [] then [] else [Delivery(targets[0], m)] + Deliveries(targets[1..], m)
  }

  lemma DeliveriesAppend(xs: seq<Session>, ys: seq<Session>, m: Message)
    ensures Deliveries(xs + ys, m) == Deliveries(xs, m) + Deliveries(ys, m)
  {
  }

  /** Sending to one more target appends one delivery. */
  lemma DeliveriesSnoc(xs: seq<Session>, x: Session, m: Message)
    ensures Deliveries(xs + [x], m) == Deliveries(xs, m) + [Delivery(x, m)]
  {
    DeliveriesAppend(xs, [x], m);
  }

  /** The messages `s` received, in order: its per-session outbox. */
  function Inbox(log: seq<Delivery>, s: Session): (msgs: seq<Message>)
    ensures |msgs| <= |log|
  {
    if log == [] then []
    else (if log[0].to == s then [log[0].message] else []) + Inbox(log[1..], s)
  }

  lemma {:induction false} InboxAppend(a: seq<Delivery>, b: seq<Delivery>, s: Session)
    ensures Inbox(a + b, s) == Inbox(a, s) + Inbox(b, s)
  {
    if a == [] {
      assert a + b == b;
    } else {
      assert (a + b)[1..] == a[1..] + b;
      InboxAppend(a[1..], b, s);
    }
  }

  /**
   * A broadcast to a list without duplicates gives each open session of the
   * list the message exactly once, and every other session nothing.
   */
  lemma {:induction false} BroadcastInbox(xs: seq<Session>, open: set<Session>, m: Message, s: Session)
    requires Distinct(xs)
    ensures Inbox(Deliveries(OpenSessions(xs, open), m), s) == if s in xs && s in open then [m] else []
  {
    if xs != [] {
      var x, rest := xs[0], xs[1..];
      DistinctTail(xs);
      BroadcastInbox(rest, open, m, s);
      var head := if x in open then [x] else [];
      assert OpenSessions(xs, open) == head + OpenSessions(rest, open);
      DeliveriesAppend(head, OpenSessions(rest, open), m);
      InboxAppend(Deliveries(head, m), Deliveries(OpenSessions(rest, open), m), s);
    }
  }
}
