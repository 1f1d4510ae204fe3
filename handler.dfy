/**
 * WebSocketHandler: the room-coordination hub. It keeps the connection
 * registry, the per-session participant records, one process-wide room
 * information map seeded on the very first connection, and the user-score
 * index; it dispatches inbound envelopes on their `type` tag and broadcasts
 * replies to the open sessions of the sender's room.
 *
 * Services are oracles given to the constructor; `isOpen()` is the `open`
 * set passed to each event; every `sendMessage` is appended to `outbox`.
 * `ok == false` stands for an exception thrown out of the event, with the
 * state left as it was when the exception was thrown.
 */
module Handler {
  import opened Wrappers
  import opened JavaNumbers
  import opened Registry
  import opened Protocol
  import opened RoundTimer
  import opened Leaderboard

  /** The room, game and auth services, as functions of their arguments. */
  datatype Services = Services(
    /** `authService.selectOneMember(HeaderUtil.getAccessTokenString(authorization))` */
    selectOneMember: Option<string> -> UserDto,
    getRoom: string -> RoomDto,
    joinRoom: (UserDto, string) -> JoinReply,
    changeMaxUser: (UserDto, string, int) -> RoomDto,
    changeAdminUser: (UserDto, string, int) -> RoomDto,
    startGame: (UserDto, GameRequest) -> GameReply,
    nextRound: string -> GameReply,
    endRound: (string, int) -> RoundReply)

  /** A participant record, keyed by session id. */
  datatype UserInfo = UserInfo(nickname: string, score: int, token: Option<string>, userIdx: int)

  /**
   * The keys the handler reads and writes in `roomInfoMap`; every access in
   * the source uses one of these string literals, named by `KeyName`.
   */
  datatype InfoKey =
    | RoomIdxKey | RoundTimeKey | RoomNowKey | RoomMaxKey | MaxRoundKey | GameCategoryKey
    | RoomStatusKey | AdminUserIdxKey | NowRoundKey | RoomTurnKey | ChangeGameTypeKey | GameTurnKey

  function KeyName(k: InfoKey): string
  {
    match k
    case RoomIdxKey => "roomIdx"
    case RoundTimeKey => "roundTime"
    case RoomNowKey => "roomNow"
    case RoomMaxKey => "roomMax"
    case MaxRoundKey => "maxRound"
    case GameCategoryKey => "gameCategory"
    case RoomStatusKey => "roomStatus"
    case AdminUserIdxKey => "adminUserIdx"
    case NowRoundKey => "nowRound"
    case RoomTurnKey => "roomTurn"
    case ChangeGameTypeKey => "changeGameType"
    case GameTurnKey => "gameTurn"
  }

  /** No two keys share a name, so the enumeration loses nothing of the string-keyed map. */
  lemma KeyNameInjective(a: InfoKey, b: InfoKey)
    ensures KeyName(a) == KeyName(b) ==> a == b
  {
  }

  /** The ten keys `initailizeRoomInfo` puts. */
  const SeedKeys: set<InfoKey> := {RoomIdxKey, RoundTimeKey, RoomNowKey, RoomMaxKey, MaxRoundKey,
                                   GameCategoryKey, RoomStatusKey, AdminUserIdxKey, NowRoundKey, RoomTurnKey}

  /**
   * `initailizeRoomInfo`'s ten `put`s applied to `info`: the room service's
   * view of the room, the id, a round time of 100 and a turn of 0.
   */
  function SeedRoomInfo(info: map<InfoKey, Value>, roomIdx: string, room: RoomDto): (r: map<InfoKey, Value>)
    ensures r.Keys == info.Keys + SeedKeys
    ensures RoomInfoReady(r)
    ensures r[RoomIdxKey] == StrVal(roomIdx) && r[RoundTimeKey] == IntVal(100) && r[RoomTurnKey] == IntVal(0)
    ensures r[RoomNowKey] == IntVal(room.roomNow) && r[RoomMaxKey] == IntVal(room.roomMax)
    ensures r[MaxRoundKey] == IntVal(room.maxRound) && r[GameCategoryKey] == StrVal(room.gameCategory)
    ensures r[RoomStatusKey] == StrVal(room.roomStatus) && r[AdminUserIdxKey] == IntVal(room.adminUserIdx)
    ensures r[NowRoundKey] == IntVal(room.nowRound)
    ensures forall k :: k in info && k !in SeedKeys ==> r[k] == info[k]
  {
    info[RoomIdxKey := StrVal(roomIdx)]
        [RoundTimeKey := IntVal(100)]
        [RoomNowKey := IntVal(room.roomNow)]
        [RoomMaxKey := IntVal(room.roomMax)]
        [MaxRoundKey := IntVal(room.maxRound)]
        [GameCategoryKey := StrVal(room.gameCategory)]
        [RoomStatusKey := StrVal(room.roomStatus)]
        [AdminUserIdxKey := IntVal(room.adminUserIdx)]
        [NowRoundKey := IntVal(room.nowRound)]
        [RoomTurnKey := IntVal(0)]
  }

  /** The keys later branches read from `roomInfoMap` are there, and `roundTime` is an Integer. */
  ghost predicate RoomInfoReady(info: map<InfoKey, Value>)
  {
    && RoundTimeKey in info && info[RoundTimeKey].IntVal?
    && GameCategoryKey in info
    && MaxRoundKey in info
  }

  ghost predicate DistinctKeys(entries: seq<ScoreEntry>)
  {
    forall i, j :: 0 <= i < j < |entries| ==> entries[i].userIdx != entries[j].userIdx
  }

  /**
   * What one inbound envelope does: whether it completes (`ok == false`
   * is the exception the source throws, with the state as it stood then),
   * the participant records and room information afterwards, the one
   * message the branch sends to the open sessions of the sender's room, if
   * any, and the round time a `timeStart` countdown starts from.
   */
  datatype Outcome = Outcome(
    ok: bool,
    userInfo: map<string, UserInfo>,
    roomInfo: map<InfoKey, Value>,
    reply: Option<Message>,
    countdown: Option<int>)

  /** The `handleTextMessage` step, branch by branch, on the state it reads. */
  function Dispatch(services: Services, userInfo: map<string, UserInfo>, roomInfo: map<InfoKey, Value>,
                    scores: seq<ScoreEntry>, s: Session, env: Envelope): Outcome
    requires RoomInfoReady(roomInfo)
  {
    var same := Outcome(true, userInfo, roomInfo, None, None);
    var thrown := Outcome(false, userInfo, roomInfo, None, None);
    if Field(env, "type").None? then thrown
    else match TypeTag(env)
    case None => same
    case Some(tag) => Step(tag, services, userInfo, roomInfo, scores, s, env)
  }

  /** The outcome of the branch for a recognised `tag`. */
  function Step(tag: Tag, services: Services, userInfo: map<string, UserInfo>, roomInfo: map<InfoKey, Value>,
                scores: seq<ScoreEntry>, s: Session, env: Envelope): Outcome
    requires RoomInfoReady(roomInfo)
  {
    var same := Outcome(true, userInfo, roomInfo, None, None);
    var thrown := Outcome(false, userInfo, roomInfo, None, None);
    var roomId := s.RoomId();
    var authorization := Field(env, "authorization");
    var user := services.selectOneMember(authorization);
    match tag
    case UserIn =>
      same.(userInfo := userInfo[s.id := UserInfo(user.userNickname, 0, authorization, user.userIdx)],
            reply := Some(JoinRoom(services.joinRoom(user, roomId))))
    case Chat => same.(reply := Some(Verbatim(env.text)))
    case Draw => same.(reply := Some(Verbatim(env.text)))
    case ChangeMax =>
      (match ParseInt(Field(env, "changedMax"))
       case None => thrown
       case Some(max) =>
         var room := services.changeMaxUser(user, roomId, max);
         same.(reply := Some(if room.status == "fail" then Failure(room.status, room.message)
                             else RoomUpdate("changeMax", room))))
    case ChangeAdmin =>
      (match Field(env, "newAdminIdx")
       case None => thrown
       case Some(idx) =>
         var info := roomInfo[AdminUserIdxKey := StrVal(idx)];
         match ParseLong(Some(idx))
         case None => thrown.(roomInfo := info)
         case Some(adminIdx) =>
           var room := services.changeAdminUser(user, roomId, adminIdx);
           same.(roomInfo := info,
                 reply := Some(if room.status == "fail" then BareNickname(user.userNickname)
                               else RoomUpdate("changeAdmin", room))))
    case ChangeGameType =>
      (match Field(env, "changeGameType")
       case None => thrown
       case Some(gameType) =>
         same.(roomInfo := roomInfo[ChangeGameTypeKey := StrVal(gameType)], reply := Some(GameTypeChanged(gameType))))
    case PlayerCnt => same.(reply := Some(PlayerCount(services.getRoom(roomId).roomNow)))
    case GameMode => same.(reply := Some(GameModeIs(services.getRoom(roomId).gameCategory)))
    case GameTime => same.(reply := Some(GameTimeIs(roomInfo[RoundTimeKey].i)))
    case GameTurn =>
      var nowRound := services.getRoom(roomId).nowRound;
      same.(roomInfo := roomInfo[GameTurnKey := IntVal(nowRound)], reply := Some(GameTurnIs(nowRound)))
    case RoundTime =>
      (match ParseInt(Field(env, "changedRoundTime"))
       case None => thrown
       case Some(roundTime) => same.(roomInfo := roomInfo[RoundTimeKey := IntVal(roundTime)]))
    case GameStart =>
      var request := GameRequest(roomInfo[GameCategoryKey], roomInfo[MaxRoundKey], roomId);
      same.(roomInfo := roomInfo[RoomStatusKey := StrVal("Playing")],
            reply := Some(GameInfo(services.startGame(user, request))))
    case TimeStart => same.(countdown := Some(roomInfo[RoundTimeKey].i))
    case NextRound => same.(reply := Some(GameInfo(services.nextRound(roomId))))
    case RoundOver =>
      (match ParseLong(Field(env, "winnerIdx"))
       case None => thrown
       case Some(winnerIdx) =>
         var round := services.endRound(roomId, winnerIdx);
         if round.userList != [] then thrown
         else same.(reply := Some(RoundInfo("gameDto", round))))
    case GameOver =>
      same.(roomInfo := roomInfo[RoomStatusKey := StrVal("Ready")],
            reply := Some(GameOverRanking(UserIds(SortByScore(scores)))))
  }

  /** The deliveries of an outcome's reply: one per open session of the sender's room, or none. */
  function Sent(reply: Option<Message>, audience: seq<Session>): (ds: seq<Delivery>)
    ensures reply.None? ==> ds == []
    ensures reply.Some? ==> |ds| == |audience| && forall i :: 0 <= i < |ds| ==> ds[i] == Delivery(audience[i], reply.value)
  {
    if reply.Some? then Deliveries(audience, reply.value) else []
  }

  /** An envelope without `type` throws at `type.equals`, before any effect. */
  lemma DispatchWithoutType(services: Services, userInfo: map<string, UserInfo>, roomInfo: map<InfoKey, Value>,
                            scores: seq<ScoreEntry>, s: Session, env: Envelope)
    requires RoomInfoReady(roomInfo) && "type" !in env.fields
    ensures Dispatch(services, userInfo, roomInfo, scores, s, env) == Outcome(false, userInfo, roomInfo, None, None)
  {
  }

  /** A `type` no branch tests for falls through the chain: nothing changes and nothing is sent. */
  lemma DispatchUnknownType(services: Services, userInfo: map<string, UserInfo>, roomInfo: map<InfoKey, Value>,
                            scores: seq<ScoreEntry>, s: Session, env: Envelope)
    requires RoomInfoReady(roomInfo) && "type" in env.fields
    requires forall t: Tag :: TagName(t) != env.fields["type"]
    ensures Dispatch(services, userInfo, roomInfo, scores, s, env) == Outcome(true, userInfo, roomInfo, None, None)
  {
  }

  /**
   * Which branches touch which state: only `userIn` writes a participant
   * record, the answering branches leave both maps alone, and only
   * `timeStart` starts a countdown, from the stored round time, changing
   * nothing else.
   */
  lemma DispatchFootprint(services: Services, userInfo: map<string, UserInfo>, roomInfo: map<InfoKey, Value>,
                          scores: seq<ScoreEntry>, s: Session, env: Envelope)
    requires RoomInfoReady(roomInfo)
    ensures var o := Dispatch(services, userInfo, roomInfo, scores, s, env);
      && (TypeTag(env) != Some(Tag.UserIn) ==> o.userInfo == userInfo)
      && (TypeTag(env).Some? && TypeTag(env).value.AnswersOnly() ==> o.roomInfo == roomInfo)
      && (o.countdown.Some? <==> TypeTag(env) == Some(Tag.TimeStart))
      && (o.countdown.Some? ==> o == Outcome(true, userInfo, roomInfo, None, Some(roomInfo[RoundTimeKey].i)))
  {
    if Field(env, "type").Some? && TypeTag(env).Some? {
      match TypeTag(env).value
      case UserIn =>
      case Chat =>
      case Draw =>
      case ChangeMax =>
      case ChangeAdmin =>
      case ChangeGameType =>
      case PlayerCnt =>
      case GameMode =>
      case GameTime =>
      case GameTurn =>
      case RoundTime =>
      case GameStart =>
      case TimeStart =>
      case NextRound =>
      case RoundOver =>
      case GameOver =>
    }
  }

  /**
   * An exception sends nothing, starts nothing and leaves the participant
   * records alone; the room information too, except that `changeAdmin` has
   * already stored the unparsed admin id when `Long.valueOf` throws.
   */
  lemma DispatchThrowSendsNothing(services: Services, userInfo: map<string, UserInfo>, roomInfo: map<InfoKey, Value>,
                                  scores: seq<ScoreEntry>, s: Session, env: Envelope)
    requires RoomInfoReady(roomInfo)
    ensures var o := Dispatch(services, userInfo, roomInfo, scores, s, env);
      !o.ok ==>
        && o.reply.None? && o.countdown.None? && o.userInfo == userInfo
        && (TypeTag(env) != Some(Tag.ChangeAdmin) || "newAdminIdx" !in env.fields ==> o.roomInfo == roomInfo)
        && (TypeTag(env) == Some(Tag.ChangeAdmin) && "newAdminIdx" in env.fields ==>
              o.roomInfo == roomInfo[AdminUserIdxKey := StrVal(env.fields["newAdminIdx"])])
  {
    if Field(env, "type").Some? && TypeTag(env).Some? {
      match TypeTag(env).value
      case UserIn =>
      case Chat =>
      case Draw =>
      case ChangeMax =>
      case ChangeAdmin =>
      case ChangeGameType =>
      case PlayerCnt =>
      case GameMode =>
      case GameTime =>
      case GameTurn =>
      case RoundTime =>
      case GameStart =>
      case TimeStart =>
      case NextRound =>
      case RoundOver =>
      case GameOver =>
    }
  }

  /** Every branch keeps the keys later branches read, with `roundTime` an Integer. */
  lemma DispatchKeepsRoomInfoReady(services: Services, userInfo: map<string, UserInfo>, roomInfo: map<InfoKey, Value>,
                                   scores: seq<ScoreEntry>, s: Session, env: Envelope)
    requires RoomInfoReady(roomInfo)
    ensures RoomInfoReady(Dispatch(services, userInfo, roomInfo, scores, s, env).roomInfo)
  {
    if Field(env, "type").Some? && TypeTag(env).Some? {
      match TypeTag(env).value
      case UserIn =>
      case Chat =>
      case Draw =>
      case ChangeMax =>
      case ChangeAdmin =>
      case ChangeGameType =>
      case PlayerCnt =>
      case GameMode =>
      case GameTime =>
      case GameTurn =>
      case RoundTime =>
      case GameStart =>
      case TimeStart =>
      case NextRound =>
      case RoundOver =>
      case GameOver =>
    }
  }

  /** `userIn` (re)writes only the sender's record, with score 0. */
  lemma DispatchUserIn(services: Services, userInfo: map<string, UserInfo>, roomInfo: map<InfoKey, Value>,
                       scores: seq<ScoreEntry>, s: Session, env: Envelope)
    requires RoomInfoReady(roomInfo) && TypeTag(env) == Some(Tag.UserIn)
    ensures var o := Dispatch(services, userInfo, roomInfo, scores, s, env);
      && o.ok && o.roomInfo == roomInfo
      && o.userInfo.Keys == userInfo.Keys + {s.id} && o.userInfo[s.id].score == 0
      && o.userInfo[s.id].userIdx == services.selectOneMember(Field(env, "authorization")).userIdx
      && (forall id :: id in userInfo && id != s.id ==> o.userInfo[id] == userInfo[id])
  {
  }

  /** `changeAdmin` stores the id text as given, whether or not it then parses. */
  lemma DispatchChangeAdmin(services: Services, userInfo: map<string, UserInfo>, roomInfo: map<InfoKey, Value>,
                            scores: seq<ScoreEntry>, s: Session, env: Envelope)
    requires RoomInfoReady(roomInfo) && TypeTag(env) == Some(Tag.ChangeAdmin)
    ensures var o := Dispatch(services, userInfo, roomInfo, scores, s, env);
      && (o.ok <==> ParseLong(Field(env, "newAdminIdx")).Some?)
      && ("newAdminIdx" in env.fields ==> o.roomInfo[AdminUserIdxKey] == StrVal(env.fields["newAdminIdx"]))
      && ("newAdminIdx" !in env.fields ==> o.roomInfo == roomInfo)
  {
  }

  /** `changeGameType` writes only the key "changeGameType" and announces the value; the game category stays. */
  lemma DispatchChangeGameType(services: Services, userInfo: map<string, UserInfo>, roomInfo: map<InfoKey, Value>,
                               scores: seq<ScoreEntry>, s: Session, env: Envelope)
    requires RoomInfoReady(roomInfo) && TypeTag(env) == Some(Tag.ChangeGameType)
    ensures var o := Dispatch(services, userInfo, roomInfo, scores, s, env);
      && (o.ok <==> "changeGameType" in env.fields)
      && (o.ok ==>
            && o.roomInfo == roomInfo[ChangeGameTypeKey := StrVal(env.fields["changeGameType"])]
            && o.roomInfo[GameCategoryKey] == roomInfo[GameCategoryKey]
            && o.reply == Some(GameTypeChanged(env.fields["changeGameType"])))
  {
  }

  /** `gameTurn` stores the current round under "gameTurn"; the seeded "roomTurn" stays as it was. */
  lemma DispatchGameTurn(services: Services, userInfo: map<string, UserInfo>, roomInfo: map<InfoKey, Value>,
                         scores: seq<ScoreEntry>, s: Session, env: Envelope)
    requires RoomInfoReady(roomInfo) && TypeTag(env) == Some(Tag.GameTurn)
    ensures var o := Dispatch(services, userInfo, roomInfo, scores, s, env);
      var nowRound := services.getRoom(s.RoomId()).nowRound;
      && o.ok && o.roomInfo[GameTurnKey] == IntVal(nowRound)
      && (RoomTurnKey in roomInfo ==> RoomTurnKey in o.roomInfo && o.roomInfo[RoomTurnKey] == roomInfo[RoomTurnKey])
      && o.reply == Some(GameTurnIs(nowRound))
  {
  }

  /** `roundOver` throws before its broadcast whenever the game service's summary lists a user. */
  lemma DispatchRoundOver(services: Services, userInfo: map<string, UserInfo>, roomInfo: map<InfoKey, Value>,
                          scores: seq<ScoreEntry>, s: Session, env: Envelope)
    requires RoomInfoReady(roomInfo) && TypeTag(env) == Some(Tag.RoundOver)
    ensures var o := Dispatch(services, userInfo, roomInfo, scores, s, env);
      && (o.ok <==> ParseLong(Field(env, "winnerIdx")).Some?
                    && services.endRound(s.RoomId(), ParseLong(Field(env, "winnerIdx")).value).userList == [])
      && (o.ok ==> o.reply == Some(RoundInfo("gameDto", services.endRound(s.RoomId(), ParseLong(Field(env, "winnerIdx")).value))))
      && (!o.ok ==> o.reply.None?)
  {
  }

  /** `gameOver` marks the room Ready and sends the user ids ranked by score, and changes nothing else. */
  lemma StepGameOver(services: Services, userInfo: map<string, UserInfo>, roomInfo: map<InfoKey, Value>,
                     scores: seq<ScoreEntry>, s: Session, env: Envelope)
    requires RoomInfoReady(roomInfo)
    ensures Step(Tag.GameOver, services, userInfo, roomInfo, scores, s, env)
         == Outcome(true, userInfo, roomInfo[RoomStatusKey := StrVal("Ready")], Some(GameOverRanking(UserIds(SortByScore(scores)))), None)
  {
  }

  /** A `roundTime` setting of n, sent as the text of n, is what the next `timeStart` counts down from. */
  lemma {:induction false} RoundTimeThenTimeStart(services: Services, userInfo: map<string, UserInfo>, roomInfo: map<InfoKey, Value>,
                                                  scores: seq<ScoreEntry>, s: Session, n: int, text1: string, text2: string)
    requires RoomInfoReady(roomInfo) && INT_MIN <= n <= INT_MAX
    ensures var o1 := Dispatch(services, userInfo, roomInfo, scores, s,
                               Envelope(text1, map["type" := "roundTime", "changedRoundTime" := DecimalString(n)]));
      && o1.ok && o1.reply.None? && RoomInfoReady(o1.roomInfo)
      && Dispatch(services, o1.userInfo, o1.roomInfo, scores, s, Envelope(text2, map["type" := "timeStart"])).countdown == Some(n)
  {
    var env1 := Envelope(text1, map["type" := "roundTime", "changedRoundTime" := DecimalString(n)]);
    var env2 := Envelope(text2, map["type" := "timeStart"]);
    assert TypeTag(env1) == Some(Tag.RoundTime);
    assert TypeTag(env2) == Some(Tag.TimeStart);
    ParseDecimalString(n, INT_MIN, INT_MAX);
    assert ParseInt(Field(env1, "changedRoundTime")) == Some(n);
    var o1 := Dispatch(services, userInfo, roomInfo, scores, s, env1);
    assert o1 == Step(Tag.RoundTime, services, userInfo, roomInfo, scores, s, env1);
    assert o1.roomInfo == roomInfo[RoundTimeKey := IntVal(n)];
    assert Dispatch(services, o1.userInfo, o1.roomInfo, scores, s, env2)
        == Step(Tag.TimeStart, services, o1.userInfo, o1.roomInfo, scores, s, env2);
  }

  /** `gameStart` marks the room Playing and a later `gameOver` marks it Ready again. */
  lemma {:induction false} GameStartThenGameOver(services: Services, userInfo: map<string, UserInfo>, roomInfo: map<InfoKey, Value>,
                                                 scores: seq<ScoreEntry>, s: Session, text1: string, text2: string)
    requires RoomInfoReady(roomInfo)
    ensures var o1 := Dispatch(services, userInfo, roomInfo, scores, s, Envelope(text1, map["type" := "gameStart"]));
      && o1.ok && o1.roomInfo[RoomStatusKey] == StrVal("Playing") && RoomInfoReady(o1.roomInfo)
      && var o2 := Dispatch(services, o1.userInfo, o1.roomInfo, scores, s, Envelope(text2, map["type" := "gameOver"]));
         && o2.ok && o2.roomInfo[RoomStatusKey] == StrVal("Ready")
         && o2.reply == Some(GameOverRanking(UserIds(SortByScore(scores))))
  {
    var env1 := Envelope(text1, map["type" := "gameStart"]);
    var env2 := Envelope(text2, map["type" := "gameOver"]);
    assert TypeTag(env1) == Some(Tag.GameStart);
    var o1 := Dispatch(services, userInfo, roomInfo, scores, s, env1);
    assert o1 == Step(Tag.GameStart, services, userInfo, roomInfo, scores, s, env1);
    assert o1.roomInfo == roomInfo[RoomStatusKey := StrVal("Playing")];
    assert TypeTag(env2) == Some(Tag.GameOver);
    StepGameOver(services, o1.userInfo, o1.roomInfo, scores, s, env2);
    assert Dispatch(services, o1.userInfo, o1.roomInfo, scores, s, env2)
        == Step(Tag.GameOver, services, o1.userInfo, o1.roomInfo, scores, s, env2);
  }

  /** An entry counted twice in a list sits at two different positions of it. */
  lemma {:induction false} TwoCopies(s: seq<ScoreEntry>, e: ScoreEntry)
    requires multiset(s)[e] >= 2
    ensures exists p, q :: 0 <= p < q < |s| && s[p] == e && s[q] == e
  {
    assert s != [];
    var t := s[1..];
    assert s == [s[0]] + t;
    assert multiset(s) == multiset{s[0]} + multiset(t);
    if s[0] == e {
      assert e in multiset(t);
      var k :| 0 <= k < |t| && t[k] == e;
      assert s[0] == e && s[k + 1] == e;
    } else {
      TwoCopies(t, e);
      var p, q :| 0 <= p < q < |t| && t[p] == e && t[q] == e;
      assert s[p + 1] == e && s[q + 1] == e;
    }
  }

  /**
   * `userScoreMap` is a map, so no user id has two entries; the ranking
   * `gameOver` sends then names every user once.
   */
  lemma RankingIdsDistinct(scores: seq<ScoreEntry>)
    requires DistinctKeys(scores)
    ensures DistinctKeys(SortByScore(scores))
    ensures var ids := UserIds(SortByScore(scores));
      forall i, j :: 0 <= i < j < |ids| ==> ids[i] != ids[j]
  {
    var r := SortByScore(scores);
    forall i, j | 0 <= i < j < |r| ensures r[i].userIdx != r[j].userIdx {
      if r[i].userIdx == r[j].userIdx {
        assert r[i] in multiset(scores) && r[j] in multiset(scores);
        var p :| 0 <= p < |scores| && scores[p] == r[i];
        var q :| 0 <= q < |scores| && scores[q] == r[j];
        if p == q {
          assert r == r[..j] + [r[j]] + r[j + 1..];
          assert r[i] == r[..j][i];
          assert multiset(r)[r[i]] >= 2;
          TwoCopies(scores, r[i]);
        }
      }
    }
  }

  /**
   * The `for (s : sessions) if (s.isOpen()) s.sendMessage(m)` loop: the
   * deliveries it makes, one per open session, in list order.
   */
  method SendToOpen(sessions: seq<Session>, open: set<Session>, m: Message) returns (sent: seq<Delivery>)
    ensures sent == Deliveries(OpenSessions(sessions, open), m)
  {
    sent := [];
    for i := 0 to |sessions|
      invariant sent == Deliveries(OpenSessions(sessions[..i], open), m)
    {
      var s := sessions[i];
      assert sessions[..i + 1] == sessions[..i] + [s];
      OpenSessionsSnoc(sessions[..i], s, open);
      if s in open {
        DeliveriesSnoc(OpenSessions(sessions[..i], open), s, m);
        sent := sent + [Delivery(s, m)];
      }
    }
    assert sessions[..|sessions|] == sessions;
  }

  class WebSocketHandler {
    const services: Services
    /** Room id to the sessions connected to it, in connection order. */
    var sessionsMap: map<string, seq<Session>>
    /** Session id to the participant who joined on it. */
    var userInfoMap: map<string, UserInfo>
    /** One map for the whole process, not one per room. */
    var roomInfoMap: map<InfoKey, Value>
    /** The user-score index's entries, in its iteration order. */
    var userScoreMap: seq<ScoreEntry>
    /** False until the first connection ever has been established. */
    var flag: bool
    /** Every message sent so far, in sending order. */
    var outbox: seq<Delivery>

    ghost predicate Valid()
      reads this
    {
      && WellKeyed(sessionsMap)
      && RoomInfoValid()
      && DistinctKeys(userScoreMap)
    }

    /** The room information is empty until the first connection seeds it. */
    ghost predicate RoomInfoValid()
      reads this`flag, this`roomInfoMap
    {
      && (!flag ==> roomInfoMap == map[])
      && (flag ==> RoomInfoReady(roomInfoMap))
    }

    constructor (services: Services)
      ensures Valid()
      ensures this.services == services
      ensures sessionsMap == map[] && userInfoMap == map[] && roomInfoMap == map[]
      ensures userScoreMap == [] && !flag && outbox == []
    {
      this.services := services;
      sessionsMap := map[];
      userInfoMap := map[];
      roomInfoMap := map[];
      userScoreMap := [];
      flag := false;
      outbox := [];
    }

    /** The `roundTime` a countdown starts from. */
    function RoundTimeSetting(): int
      requires Valid() && flag
      reads this
    {
      roomInfoMap[RoundTimeKey].i
    }

    /** The sessions of `roomId` a broadcast would reach now. */
    function Audience(roomId: string, open: set<Session>): seq<Session>
      reads this
    {
      OpenSessions(Lookup(sessionsMap, roomId), open)
    }

    /** Send `m` to every open session of `roomId`, in the registry's list order. */
    method Broadcast(roomId: string, m: Message, open: set<Session>)
      modifies this`outbox
      ensures outbox == old(outbox) + Deliveries(Audience(roomId, open), m)
    {
      var sent := SendToOpen(Lookup(sessionsMap, roomId), open, m);
      outbox := outbox + sent;
    }

    /** `initailizeRoomInfo`: ten `put`s into the process-wide map. */
    method InitializeRoomInfo(roomIdx: string)
      modifies this`roomInfoMap
      ensures roomInfoMap == SeedRoomInfo(old(roomInfoMap), roomIdx, services.getRoom(roomIdx))
    {
      var room := services.getRoom(roomIdx);
      roomInfoMap := roomInfoMap[RoomIdxKey := StrVal(roomIdx)];
      roomInfoMap := roomInfoMap[RoundTimeKey := IntVal(100)];
      roomInfoMap := roomInfoMap[RoomNowKey := IntVal(room.roomNow)];
      roomInfoMap := roomInfoMap[RoomMaxKey := IntVal(room.roomMax)];
      roomInfoMap := roomInfoMap[MaxRoundKey := IntVal(room.maxRound)];
      roomInfoMap := roomInfoMap[GameCategoryKey := StrVal(room.gameCategory)];
      roomInfoMap := roomInfoMap[RoomStatusKey := StrVal(room.roomStatus)];
      roomInfoMap := roomInfoMap[AdminUserIdxKey := IntVal(room.adminUserIdx)];
      roomInfoMap := roomInfoMap[NowRoundKey := IntVal(room.nowRound)];
      roomInfoMap := roomInfoMap[RoomTurnKey := IntVal(0)];
    }

    /**
     * `afterConnectionEstablished`: register the session under its room, and
     * seed the room information on the first connection the handler ever sees.
     */
    method AfterConnectionEstablished(s: Session)
      requires Valid()
      requires s !in Lookup(sessionsMap, s.RoomId())
      modifies this`sessionsMap, this`roomInfoMap, this`flag
      ensures Valid() && flag
      ensures sessionsMap == Register(old(sessionsMap), s.RoomId(), s)
      ensures old(flag) ==> roomInfoMap == old(roomInfoMap)
      ensures !old(flag) ==> roomInfoMap == SeedRoomInfo(map[], s.RoomId(), services.getRoom(s.RoomId()))
    {
      var roomId := s.RoomId();
      RegisterKeepsWellKeyed(sessionsMap, s);
      sessionsMap := Register(sessionsMap, roomId, s);
      if !flag {
        InitializeRoomInfo(roomId);
        flag := true;
      }
    }

    /**
     * `afterConnectionClosed`: look up the participant (a session that never
     * sent `userIn` has none, and the lookup throws before anything changes),
     * unregister the session, drop the room once empty, and tell the rest.
     */
    method AfterConnectionClosed(s: Session, open: set<Session>) returns (ok: bool)
      requires Valid()
      modifies this`sessionsMap, this`outbox
      ensures Valid()
      ensures ok <==> s.id in old(userInfoMap)
      ensures !ok ==> unchanged(this)
      ensures ok ==> sessionsMap == Unregister(old(sessionsMap), s.RoomId(), s)
      ensures ok ==> outbox == old(outbox) + Deliveries(Audience(s.RoomId(), open), Departure(old(userInfoMap)[s.id].nickname))
    {
      if s.id !in userInfoMap {
        return false;
      }
      var nickname := userInfoMap[s.id].nickname;
      var roomId := s.RoomId();
      UnregisterKeepsWellKeyed(sessionsMap, roomId, s);
      sessionsMap := Unregister(sessionsMap, roomId, s);
      Broadcast(roomId, Departure(nickname), open);
      ok := true;
    }

    /** `handleTextMessage`: route on `type` and run the branch. */
    method HandleTextMessage(s: Session, env: Envelope, open: set<Session>) returns (ok: bool, timer: Countdown?)
      requires Valid() && flag
      modifies this`userInfoMap, this`roomInfoMap, this`outbox
      ensures Valid() && flag
      ensures var o := Dispatch(services, old(userInfoMap), old(roomInfoMap), userScoreMap, s, env);
        && ok == o.ok && userInfoMap == o.userInfo && roomInfoMap == o.roomInfo
        && outbox == old(outbox) + Sent(o.reply, Audience(s.RoomId(), open))
        && (timer != null <==> o.countdown.Some?)
        && (timer != null ==> fresh(timer) && timer.running && timer.roomId == s.RoomId() && timer.time == o.countdown.value)
    {
      timer := null;
      if Field(env, "type").None? {
        return false, null;
      }
      var tag := TypeTag(env);
      if tag.None? {
        return true, null;
      }
      ok := true;
      match tag.value
      case UserIn => UserIn(s, env, open);
      case Chat => Relay(s, env, open);
      case Draw => Relay(s, env, open);
      case ChangeMax => ok := ChangeMax(s, env, open);
      case ChangeAdmin => ok := ChangeAdmin(s, env, open);
      case ChangeGameType => ok := ChangeGameType(s, env, open);
      case PlayerCnt => PlayerCnt(s, env, open);
      case GameMode => GameMode(s, env, open);
      case GameTime => GameTime(s, env, open);
      case GameTurn => GameTurn(s, env, open);
      case RoundTime => ok := SetRoundTime(s, env);
      case GameStart => GameStart(s, env, open);
      case TimeStart => timer := TimeStart(s, env);
      case NextRound => NextRound(s, env, open);
      case RoundOver => ok := RoundOver(s, env, open);
      case GameOver => GameOver(s, env, open);
    }

    /** `userIn`: (re)write the session's participant record with score 0, join the room, broadcast the reply. */
    method UserIn(s: Session, env: Envelope, open: set<Session>)
      requires Valid() && flag
      modifies this`userInfoMap, this`outbox
      ensures Valid()
      ensures var user := services.selectOneMember(Field(env, "authorization"));
        && userInfoMap == old(userInfoMap)[s.id := UserInfo(user.userNickname, 0, Field(env, "authorization"), user.userIdx)]
        && outbox == old(outbox) + Deliveries(Audience(s.RoomId(), open), JoinRoom(services.joinRoom(user, s.RoomId())))
      ensures var o := Step(Tag.UserIn, services, old(userInfoMap), old(roomInfoMap), userScoreMap, s, env);
        && o.ok && userInfoMap == o.userInfo && roomInfoMap == o.roomInfo
        && outbox == old(outbox) + Sent(o.reply, Audience(s.RoomId(), open))
        && o.countdown.None?
    {
      var authorization := Field(env, "authorization");
      var user := services.selectOneMember(authorization);
      userInfoMap := userInfoMap[s.id := UserInfo(user.userNickname, 0, authorization, user.userIdx)];
      var reply := services.joinRoom(user, s.RoomId());
      Broadcast(s.RoomId(), JoinRoom(reply), open);
    }

    /** `chat` and `draw`: send the inbound text on unchanged. */
    method Relay(s: Session, env: Envelope, open: set<Session>)
      requires Valid() && flag
      requires TypeTag(env) == Some(Tag.Chat) || TypeTag(env) == Some(Tag.Draw)
      modifies this`outbox
      ensures outbox == old(outbox) + Deliveries(Audience(s.RoomId(), open), Verbatim(env.text))
      ensures var o := Step(TypeTag(env).value, services, old(userInfoMap), old(roomInfoMap), userScoreMap, s, env);
        && o.ok && userInfoMap == o.userInfo && roomInfoMap == o.roomInfo
        && outbox == old(outbox) + Sent(o.reply, Audience(s.RoomId(), open))
        && o.countdown.None?
    {
      Broadcast(s.RoomId(), Verbatim(env.text), open);
    }

    /** `changeMax`: parse the new maximum, ask the room service, broadcast its verdict. */
    method ChangeMax(s: Session, env: Envelope, open: set<Session>) returns (ok: bool)
      requires Valid() && flag
      modifies this`outbox
      ensures ok <==> ParseInt(Field(env, "changedMax")).Some?
      ensures !ok ==> outbox == old(outbox)
      ensures ok ==>
        var room := services.changeMaxUser(services.selectOneMember(Field(env, "authorization")), s.RoomId(),
                                           ParseInt(Field(env, "changedMax")).value);
        outbox == old(outbox) + Deliveries(Audience(s.RoomId(), open),
                                           if room.status == "fail" then Failure(room.status, room.message)
                                           else RoomUpdate("changeMax", room))
      ensures var o := Step(Tag.ChangeMax, services, old(userInfoMap), old(roomInfoMap), userScoreMap, s, env);
        && ok == o.ok && userInfoMap == o.userInfo && roomInfoMap == o.roomInfo
        && outbox == old(outbox) + Sent(o.reply, Audience(s.RoomId(), open))
        && o.countdown.None?
    {
      var changedMax := ParseInt(Field(env, "changedMax"));
      if changedMax.None? {
        return false;
      }
      var user := services.selectOneMember(Field(env, "authorization"));
      var room := services.changeMaxUser(user, s.RoomId(), changedMax.value);
      if room.status == "fail" {
        Broadcast(s.RoomId(), Failure(room.status, room.message), open);
      } else {
        Broadcast(s.RoomId(), RoomUpdate("changeMax", room), open);
      }
      ok := true;
    }

    /**
     * `changeAdmin`: store the new admin id as given (a String) before anything
     * else, then parse it for the room service and broadcast its verdict.
     */
    method ChangeAdmin(s: Session, env: Envelope, open: set<Session>) returns (ok: bool)
      requires Valid() && flag
      modifies this`roomInfoMap, this`outbox
      ensures Valid()
      ensures ok <==> ParseLong(Field(env, "newAdminIdx")).Some?
      ensures Field(env, "newAdminIdx").None? ==> roomInfoMap == old(roomInfoMap)
      ensures Field(env, "newAdminIdx").Some? ==>
        roomInfoMap == old(roomInfoMap)[AdminUserIdxKey := StrVal(env.fields["newAdminIdx"])]
      ensures !ok ==> outbox == old(outbox)
      ensures ok ==>
        var user := services.selectOneMember(Field(env, "authorization"));
        var room := services.changeAdminUser(user, s.RoomId(), ParseLong(Field(env, "newAdminIdx")).value);
        outbox == old(outbox) + Deliveries(Audience(s.RoomId(), open),
                                           if room.status == "fail" then BareNickname(user.userNickname)
                                           else RoomUpdate("changeAdmin", room))
      ensures var o := Step(Tag.ChangeAdmin, services, old(userInfoMap), old(roomInfoMap), userScoreMap, s, env);
        && ok == o.ok && userInfoMap == o.userInfo && roomInfoMap == o.roomInfo
        && outbox == old(outbox) + Sent(o.reply, Audience(s.RoomId(), open))
        && o.countdown.None?
    {
      var newAdminIdx := Field(env, "newAdminIdx");
      if newAdminIdx.None? {
        // ConcurrentHashMap.put rejects a null value.
        return false;
      }
      roomInfoMap := roomInfoMap[AdminUserIdxKey := StrVal(newAdminIdx.value)];
      var user := services.selectOneMember(Field(env, "authorization"));
      var adminIdx := ParseLong(newAdminIdx);
      if adminIdx.None? {
        return false;
      }
      var room := services.changeAdminUser(user, s.RoomId(), adminIdx.value);
      if room.status == "fail" {
        Broadcast(s.RoomId(), BareNickname(user.userNickname), open);
      } else {
        Broadcast(s.RoomId(), RoomUpdate("changeAdmin", room), open);
      }
      ok := true;
    }

    /** `changeGameType`: store the value under the key "changeGameType" and announce it. */
    method ChangeGameType(s: Session, env: Envelope, open: set<Session>) returns (ok: bool)
      requires Valid() && flag
      modifies this`roomInfoMap, this`outbox
      ensures Valid()
      ensures ok <==> Field(env, "changeGameType").Some?
      ensures !ok ==> roomInfoMap == old(roomInfoMap) && outbox == old(outbox)
      ensures ok ==>
        && roomInfoMap == old(roomInfoMap)[ChangeGameTypeKey := StrVal(env.fields["changeGameType"])]
        && outbox == old(outbox) + Deliveries(Audience(s.RoomId(), open), GameTypeChanged(env.fields["changeGameType"]))
      ensures var o := Step(Tag.ChangeGameType, services, old(userInfoMap), old(roomInfoMap), userScoreMap, s, env);
        && ok == o.ok && userInfoMap == o.userInfo && roomInfoMap == o.roomInfo
        && outbox == old(outbox) + Sent(o.reply, Audience(s.RoomId(), open))
        && o.countdown.None?
    {
      var gameType := Field(env, "changeGameType");
      if gameType.None? {
        return false;
      }
      roomInfoMap := roomInfoMap[ChangeGameTypeKey := StrVal(gameType.value)];
      Broadcast(s.RoomId(), GameTypeChanged(gameType.value), open);
      ok := true;
    }

    /** `playerCnt`: announce the room service's current occupancy. */
    method PlayerCnt(s: Session, env: Envelope, open: set<Session>)
      requires Valid() && flag
      modifies this`outbox
      ensures outbox == old(outbox) + Deliveries(Audience(s.RoomId(), open), PlayerCount(services.getRoom(s.RoomId()).roomNow))
      ensures var o := Step(Tag.PlayerCnt, services, old(userInfoMap), old(roomInfoMap), userScoreMap, s, env);
        && o.ok && userInfoMap == o.userInfo && roomInfoMap == o.roomInfo
        && outbox == old(outbox) + Sent(o.reply, Audience(s.RoomId(), open))
        && o.countdown.None?
    {
      var room := services.getRoom(s.RoomId());
      Broadcast(s.RoomId(), PlayerCount(room.roomNow), open);
    }

    /** `gameMode`: announce the room service's game category. */
    method GameMode(s: Session, env: Envelope, open: set<Session>)
      requires Valid() && flag
      modifies this`outbox
      ensures outbox == old(outbox) + Deliveries(Audience(s.RoomId(), open), GameModeIs(services.getRoom(s.RoomId()).gameCategory))
      ensures var o := Step(Tag.GameMode, services, old(userInfoMap), old(roomInfoMap), userScoreMap, s, env);
        && o.ok && userInfoMap == o.userInfo && roomInfoMap == o.roomInfo
        && outbox == old(outbox) + Sent(o.reply, Audience(s.RoomId(), open))
        && o.countdown.None?
    {
      var room := services.getRoom(s.RoomId());
      Broadcast(s.RoomId(), GameModeIs(room.gameCategory), open);
    }

    /** `gameTime`: announce the stored round time. */
    method GameTime(s: Session, env: Envelope, open: set<Session>)
      requires Valid() && flag
      modifies this`outbox
      ensures outbox == old(outbox) + Deliveries(Audience(s.RoomId(), open), GameTimeIs(RoundTimeSetting()))
      ensures var o := Step(Tag.GameTime, services, old(userInfoMap), old(roomInfoMap), userScoreMap, s, env);
        && o.ok && userInfoMap == o.userInfo && roomInfoMap == o.roomInfo
        && outbox == old(outbox) + Sent(o.reply, Audience(s.RoomId(), open))
        && o.countdown.None?
    {
      Broadcast(s.RoomId(), GameTimeIs(roomInfoMap[RoundTimeKey].i), open);
    }

    /** `gameTurn`: store the room service's current round under "gameTurn" and announce it. */
    method GameTurn(s: Session, env: Envelope, open: set<Session>)
      requires Valid() && flag
      modifies this`roomInfoMap, this`outbox
      ensures Valid()
      ensures var nowRound := services.getRoom(s.RoomId()).nowRound;
        && roomInfoMap == old(roomInfoMap)[GameTurnKey := IntVal(nowRound)]
        && outbox == old(outbox) + Deliveries(Audience(s.RoomId(), open), GameTurnIs(nowRound))
      ensures var o := Step(Tag.GameTurn, services, old(userInfoMap), old(roomInfoMap), userScoreMap, s, env);
        && o.ok && userInfoMap == o.userInfo && roomInfoMap == o.roomInfo
        && outbox == old(outbox) + Sent(o.reply, Audience(s.RoomId(), open))
        && o.countdown.None?
    {
      var nowRound := services.getRoom(s.RoomId()).nowRound;
      roomInfoMap := roomInfoMap[GameTurnKey := IntVal(nowRound)];
      Broadcast(s.RoomId(), GameTurnIs(nowRound), open);
    }

    /** `roundTime`: store the parsed round time; nothing is sent. */
    method SetRoundTime(s: Session, env: Envelope) returns (ok: bool)
      requires Valid() && flag
      modifies this`roomInfoMap
      ensures Valid()
      ensures ok <==> ParseInt(Field(env, "changedRoundTime")).Some?
      ensures roomInfoMap == if ok then old(roomInfoMap)[RoundTimeKey := IntVal(ParseInt(Field(env, "changedRoundTime")).value)]
                             else old(roomInfoMap)
      ensures var o := Step(Tag.RoundTime, services, old(userInfoMap), old(roomInfoMap), userScoreMap, s, env);
        && ok == o.ok && userInfoMap == o.userInfo && roomInfoMap == o.roomInfo
        && o.reply.None? && o.countdown.None?
    {
      var roundTime := ParseInt(Field(env, "changedRoundTime"));
      if roundTime.None? {
        return false;
      }
      roomInfoMap := roomInfoMap[RoundTimeKey := IntVal(roundTime.value)];
      ok := true;
    }

    /** `gameStart`: mark the room Playing, ask the game service to start, broadcast its reply. */
    method GameStart(s: Session, env: Envelope, open: set<Session>)
      requires Valid() && flag
      modifies this`roomInfoMap, this`outbox
      ensures Valid()
      ensures roomInfoMap == old(roomInfoMap)[RoomStatusKey := StrVal("Playing")]
      ensures var request := GameRequest(old(roomInfoMap)[GameCategoryKey], old(roomInfoMap)[MaxRoundKey], s.RoomId());
        var game := services.startGame(services.selectOneMember(Field(env, "authorization")), request);
        outbox == old(outbox) + Deliveries(Audience(s.RoomId(), open), GameInfo(game))
      ensures var o := Step(Tag.GameStart, services, old(userInfoMap), old(roomInfoMap), userScoreMap, s, env);
        && o.ok && userInfoMap == o.userInfo && roomInfoMap == o.roomInfo
        && outbox == old(outbox) + Sent(o.reply, Audience(s.RoomId(), open))
        && o.countdown.None?
    {
      roomInfoMap := roomInfoMap[RoomStatusKey := StrVal("Playing")];
      var user := services.selectOneMember(Field(env, "authorization"));
      var request := GameRequest(roomInfoMap[GameCategoryKey], roomInfoMap[MaxRoundKey], s.RoomId());
      var game := services.startGame(user, request);
      Broadcast(s.RoomId(), GameInfo(game), open);
    }

    /** `timeStart`: start a countdown from the stored round time; its ticks are sent by TimerFires. */
    method TimeStart(s: Session, env: Envelope) returns (timer: Countdown)
      requires Valid() && flag
      ensures fresh(timer) && timer.running
      ensures timer.roomId == s.RoomId() && timer.time == RoundTimeSetting()
      ensures var o := Step(Tag.TimeStart, services, userInfoMap, roomInfoMap, userScoreMap, s, env);
        && o.ok && userInfoMap == o.userInfo && roomInfoMap == o.roomInfo
        && o.reply.None? && o.countdown == Some(timer.time)
    {
      timer := new Countdown(s.RoomId(), roomInfoMap[RoundTimeKey].i);
    }

    /** `nextRound`: ask the game service to advance and broadcast its reply. */
    method NextRound(s: Session, env: Envelope, open: set<Session>)
      requires Valid() && flag
      modifies this`outbox
      ensures outbox == old(outbox) + Deliveries(Audience(s.RoomId(), open), GameInfo(services.nextRound(s.RoomId())))
      ensures var o := Step(Tag.NextRound, services, old(userInfoMap), old(roomInfoMap), userScoreMap, s, env);
        && o.ok && userInfoMap == o.userInfo && roomInfoMap == o.roomInfo
        && outbox == old(outbox) + Sent(o.reply, Audience(s.RoomId(), open))
        && o.countdown.None?
    {
      var game := services.nextRound(s.RoomId());
      Broadcast(s.RoomId(), GameInfo(game), open);
    }

    /**
     * `roundOver`: parse the winner, close the round with the game service,
     * copy each listed score into the participant records, broadcast the
     * summary. The records are keyed by session id, and the copy looks them
     * up by the user's `Long` index, which never equals a `String` key: the
     * lookup yields null and the assignment through it throws, before the
     * broadcast, whenever the service's reply lists a user.
     */
    method RoundOver(s: Session, env: Envelope, open: set<Session>) returns (ok: bool)
      requires Valid() && flag
      modifies this`outbox
      ensures ok <==> ParseLong(Field(env, "winnerIdx")).Some?
                      && services.endRound(s.RoomId(), ParseLong(Field(env, "winnerIdx")).value).userList == []
      ensures !ok ==> outbox == old(outbox)
      ensures ok ==>
        var round := services.endRound(s.RoomId(), ParseLong(Field(env, "winnerIdx")).value);
        outbox == old(outbox) + Deliveries(Audience(s.RoomId(), open), RoundInfo("gameDto", round))
      ensures var o := Step(Tag.RoundOver, services, old(userInfoMap), old(roomInfoMap), userScoreMap, s, env);
        && ok == o.ok && userInfoMap == o.userInfo && roomInfoMap == o.roomInfo
        && outbox == old(outbox) + Sent(o.reply, Audience(s.RoomId(), open))
        && o.countdown.None?
    {
      var winnerIdx := ParseLong(Field(env, "winnerIdx"));
      if winnerIdx.None? {
        return false;
      }
      var round := services.endRound(s.RoomId(), winnerIdx.value);
      if round.userList != [] {
        // userInfoMap.get(userIdx) is null for the first listed user.
        return false;
      }
      Broadcast(s.RoomId(), RoundInfo("gameDto", round), open);
      ok := true;
    }

    /** `gameOver`: mark the room Ready and broadcast the user ids ranked by score, highest first. */
    method GameOver(s: Session, env: Envelope, open: set<Session>)
      requires Valid() && flag
      modifies this`roomInfoMap, this`outbox
      ensures Valid()
      ensures roomInfoMap == old(roomInfoMap)[RoomStatusKey := StrVal("Ready")]
      ensures outbox == old(outbox) + Deliveries(Audience(s.RoomId(), open), GameOverRanking(UserIds(SortByScore(userScoreMap))))
      ensures var o := Step(Tag.GameOver, services, old(userInfoMap), old(roomInfoMap), userScoreMap, s, env);
        && o.ok && userInfoMap == o.userInfo && roomInfoMap == o.roomInfo
        && outbox == old(outbox) + Sent(o.reply, Audience(s.RoomId(), open))
        && o.countdown.None?
    {
      StepGameOver(services, userInfoMap, roomInfoMap, userScoreMap, s, env);
      roomInfoMap := roomInfoMap[RoomStatusKey := StrVal("Ready")];
      var sortedEntries := SortByScore(userScoreMap);
      var sortedUserIds := SortedUserIds(sortedEntries);
      Broadcast(s.RoomId(), GameOverRanking(sortedUserIds), open);
    }

    /**
     * One period of a running countdown's scheduler: if the task runs with
     * time left, every open session of its room receives the remaining seconds.
     */
    method TimerFires(timer: Countdown, open: set<Session>) returns (tick: Option<int>)
      modifies this`outbox, timer
      ensures tick == (if old(timer.running) && old(timer.time) > 0 then Some(old(timer.time)) else None)
      ensures timer.running == (old(timer.running) && old(timer.time) > 0)
      ensures timer.time == if tick.Some? then old(timer.time) - 1 else old(timer.time)
      ensures tick.None? ==> outbox == old(outbox)
      ensures tick.Some? ==>
        outbox == old(outbox) + Deliveries(Audience(timer.roomId, open), TimeTick(DecimalString(tick.value)))
    {
      tick := timer.Fire();
      if tick.Some? {
        Broadcast(timer.roomId, TimeTick(DecimalString(tick.value)), open);
      }
    }
  }

  /**
   * Two sessions connect one after the other, possibly to different rooms:
   * only the first seeds the room information, so the second room reads the
   * first room's id, status and settings from the one shared map.
   */
  method ConnectTwoRooms(services: Services, a: Session, b: Session) returns (h: WebSocketHandler)
    requires a != b
    ensures fresh(h) && h.Valid() && h.flag
    ensures h.roomInfoMap == SeedRoomInfo(map[], a.RoomId(), services.getRoom(a.RoomId()))
    ensures h.roomInfoMap[RoomIdxKey] == StrVal(a.RoomId())
    ensures a in Lookup(h.sessionsMap, a.RoomId()) && b in Lookup(h.sessionsMap, b.RoomId())
  {
    h := new WebSocketHandler(services);
    h.AfterConnectionEstablished(a);
    assert a in Lookup(h.sessionsMap, a.RoomId());
    h.AfterConnectionEstablished(b);
  }
}
