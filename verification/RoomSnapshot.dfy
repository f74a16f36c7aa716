/**
  The snapshot of a whole room: what room_from_json makes of room_to_json, for every room,
  and exactly which rooms come back unchanged.
  */
module RoomSnapshot {
  import opened Common
  import opened HoldemTypes
  import opened TableState
  import opened Snapshot
  import EventLog

  datatype Identity = Identity(
    roomId: string, roomCode: string, roomType: string, ownerUserId: int, visibility: string, status: string,
    maxPlayers: int, createdAt: int, lastActiveAt: int, emptySince: Option<int>)

  datatype Settings = Settings(started: bool, totalHands: int, initialChips: int, smallBlind: int, bigBlind: int)

  datatype Play = Play(
    handNum: int, dealer: int, sb: int, bb: int, pot: int, round: string, board: seq<Card>, deck: seq<Card>,
    currentMaxBet: int, minRaise: int, active: int, pending: set<int>, players: Players,
    turnNonce: int, lastActor: int)

  datatype Logs = Logs(
    handHistory: seq<MatchHand>, activityLog: seq<string>, eventSeq: int, events: seq<EventLog.Entry>, closing: bool)

  datatype Voice = Voice(seatIdx: int, name: string)

  /** What belongs to the running process: sockets, host, voice and acknowledgements. */
  datatype Links = Links(
    socketIds: set<string>, hostSocketId: string, voice: map<string, Voice>,
    expectedAcks: set<string>, matchAcks: set<string>)

  const NO_LINKS := Links({}, "", map[], {}, {})

  /** The fields of a room, grouped. */
  datatype Room = Room(
    identity: Identity, settings: Settings, seats: seq<SeatRecord>, play: Play, logs: Logs, links: Links)

  // ----- writing -----

  function SeatOrNull(n: int): Json {
    if n >= 0 then Num(n) else Null
  }

  function IdentityFields(r: Identity): map<Key, Json> {
    map[
      SchemaVersion := Num(2), SnapshotFormat := Str("nebula-cpp-1"),
      RoomId := Str(r.roomId), RoomCode := Str(r.roomCode), RoomType := Str(r.roomType),
      OwnerUserId := Num(r.ownerUserId), Visibility := Str(r.visibility), Status := Str(r.status),
      MaxPlayers := Num(r.maxPlayers), CreatedAt := Num(r.createdAt), LastActiveAt := Num(r.lastActiveAt),
      EmptySince := if r.emptySince.Some? then Num(r.emptySince.value) else Null,
      HostSocketId := Null, HostSocketIdOld := Null]
  }

  function SettingsFields(r: Settings, seats: seq<SeatRecord>): map<Key, Json> {
    map[
      Seats := Arr(SeatsJson(seats)), Started := Bool(r.started), TotalHands := Num(r.totalHands),
      InitialChips := Num(r.initialChips), SmallBlind := Num(r.smallBlind), BigBlind := Num(r.bigBlind)]
  }

  function PlayFields(r: Play): map<Key, Json> {
    map[
      HandNum := Num(r.handNum), DealerSeatIdx := Num(r.dealer), SbSeatIdx := SeatOrNull(r.sb),
      BbSeatIdx := SeatOrNull(r.bb), Pot := Num(r.pot), RoundName := Str(r.round),
      CommunityCards := Arr(CardsJson(r.board)), Deck := Arr(CardsJson(r.deck)),
      CurrentMaxBet := Num(r.currentMaxBet), MinRaise := Num(r.minRaise), ActiveSeatIdx := SeatOrNull(r.active),
      PendingActionSeats := Arr(SeatNumbersJson(r.pending, SEATS)), PlayerRows := Arr(RowsJson(r.players, SEATS)),
      TurnNonce := Num(r.turnNonce), LastActorSeatIdx := SeatOrNull(r.lastActor)]
  }

  function LogFields(r: Logs): map<Key, Json> {
    map[
      HandHistory := Arr(HandsJson(r.handHistory)), ActivityLog := Arr(LinesJson(r.activityLog)),
      EventSeq := Num(r.eventSeq), EventRows := Arr(EventsJson(r.events)), Closing := Bool(r.closing)]
  }

  function RoomFields(r: Room): map<Key, Json> {
    IdentityFields(r.identity) + SettingsFields(r.settings, r.seats) + PlayFields(r.play) + LogFields(r.logs)
  }

  /** room_to_json, without the voice list that the reader ignores. */
  function RoomJson(r: Room): Json {
    Obj(RoomFields(r))
  }

  // ----- reading -----

  function IdentityOf(j: Json, now: int): Read<Identity> {
    var id :- StrOr(j, RoomId, "");
    var rid :- if id == "" then StrOr(j, RoomIdOld, "") else Got(id);
    var code :- StrOr(j, RoomCode, rid);
    var kind :- StrOr(j, RoomType, "friend");
    var owner :- LongOr(j, OwnerUserId, 0);
    var visibility :- StrOr(j, Visibility, "private");
    var status :- StrOr(j, Status, "waiting");
    var maxPlayers :- IntOr(j, MaxPlayers, SEATS);
    var createdAt :- LongOr(j, CreatedAt, now);
    var lastActiveAt :- LongOr(j, LastActiveAt, now);
    Got(Identity(rid, if code == "" then rid else code, if kind == "" then "friend" else kind, owner, visibility, status,
                 maxPlayers, createdAt, lastActiveAt, Some(NumIf(j, EmptySince, now))))
  }

  function SettingsOf(j: Json): Read<Settings> {
    var started :- BoolOr(j, Started, false);
    var totalHands :- IntOr(j, TotalHands, 5);
    var initialChips :- IntOr(j, InitialChips, 1000);
    var small :- IntOr(j, SmallBlind, 50);
    var big :- IntOr(j, BigBlind, 100);
    Got(Settings(started, Clamp(totalHands, 1, 50), Max(1000, initialChips), Max(1, small), Max(Max(1, small), big)))
  }

  function PlayOf(j: Json, bigBlind: int): Read<Play> {
    var handNum :- IntOr(j, HandNum, 0);
    var dealer :- IntOr(j, DealerSeatIdx, 0);
    var pot :- IntOr(j, Pot, 0);
    var round :- StrOr(j, RoundName, "WAITING");
    var board :- CardsOf(ItemsOf(j, CommunityCards));
    var deck :- CardsOf(ItemsOf(j, Deck));
    var maxBet :- IntOr(j, CurrentMaxBet, 0);
    var minRaise :- IntOr(j, MinRaise, bigBlind);
    var players :- RowsOf(ItemsOf(j, PlayerRows));
    var nonce :- IntOr(j, TurnNonce, 0);
    Got(Play(Max(0, handNum), dealer, NumIf(j, SbSeatIdx, -1), NumIf(j, BbSeatIdx, -1), Max(0, pot), round, board, deck,
             Max(0, maxBet), Max(1, minRaise), NumIf(j, ActiveSeatIdx, -1),
             SeatNumbersOf(ItemsOf(j, PendingActionSeats)), players, Max(0, nonce), NumIf(j, LastActorSeatIdx, -1)))
  }

  function LogsOf(j: Json): Read<Logs> {
    var hands :- HandsOf(ItemsOf(j, HandHistory));
    var eventSeq :- LongOr(j, EventSeq, 0);
    var events :- EventsOf(ItemsOf(j, EventRows));
    var closing :- BoolOr(j, Closing, false);
    Got(Logs(hands, LinesOf(ItemsOf(j, ActivityLog)), eventSeq, EventLog.Tail(events), closing))
  }

  /** room_from_json; `now` stands for the clock where a time is missing. */
  function RoomOf(j: Json, now: int): Read<Room> {
    var identity :- IdentityOf(j, now);
    var seats :- SeatsOf(ItemsOf(j, Seats), SEATS);
    var settings :- SettingsOf(j);
    var play :- PlayOf(j, settings.bigBlind);
    var logs :- LogsOf(j);
    Got(Room(identity, settings, seats, play, logs, NO_LINKS))
  }

  // ----- what comes back -----

  function KeptIdentity(r: Identity, now: int): Identity {
    r.(roomCode := if r.roomCode == "" then r.roomId else r.roomCode,
       roomType := if r.roomType == "" then "friend" else r.roomType,
       emptySince := if r.emptySince.Some? then r.emptySince else Some(now))
  }

  function KeptSettings(r: Settings): Settings {
    r.(totalHands := Clamp(r.totalHands, 1, 50), initialChips := Max(1000, r.initialChips),
       smallBlind := Max(1, r.smallBlind), bigBlind := Max(Max(1, r.smallBlind), r.bigBlind))
  }

  function KeptPlay(r: Play): Play {
    r.(handNum := Max(0, r.handNum), sb := Max(-1, r.sb), bb := Max(-1, r.bb), pot := Max(0, r.pot),
       currentMaxBet := Max(0, r.currentMaxBet), minRaise := Max(1, r.minRaise), active := Max(-1, r.active),
       turnNonce := Max(0, r.turnNonce), lastActor := Max(-1, r.lastActor))
  }

  function KeptLogs(r: Logs): Logs {
    r.(events := EventLog.Tail(WithEnvelope(r.events)))
  }

  function Kept(r: Room, now: int): Room {
    Room(KeptIdentity(r.identity, now), KeptSettings(r.settings), PlainSeats(r.seats), KeptPlay(r.play),
         KeptLogs(r.logs), NO_LINKS)
  }

  /** Ten seats, and players and pending seats numbered by seat. */
  predicate SeatNumbered(r: Room) {
    && |r.seats| == SEATS
    && (forall i | i in r.play.players :: 0 <= i < SEATS)
    && forall i | i in r.play.pending :: 0 <= i < SEATS
  }

  // ----- the object carries the fields of each group -----

  /** Which group of fields a key belongs to. */
  function Group(k: Key): nat {
    match k
    case SchemaVersion => 0 case SnapshotFormat => 0 case RoomId => 0 case RoomCode => 0 case RoomType => 0
    case OwnerUserId => 0 case Visibility => 0 case Status => 0 case MaxPlayers => 0 case CreatedAt => 0
    case LastActiveAt => 0 case EmptySince => 0 case HostSocketId => 0 case HostSocketIdOld => 0
    case Seats => 1 case Started => 1 case TotalHands => 1 case InitialChips => 1 case SmallBlind => 1 case BigBlind => 1
    case HandHistory => 3 case ActivityLog => 3 case EventSeq => 3 case EventRows => 3 case Closing => 3
    case RoomIdOld => 4
    case _ => 2
  }

  lemma KeysOfIdentity(r: Identity)
    ensures forall k :: k in IdentityFields(r) ==> Group(k) == 0
  {}

  lemma KeysOfSettings(r: Settings, seats: seq<SeatRecord>)
    ensures forall k :: k in SettingsFields(r, seats) ==> Group(k) == 1
  {}

  lemma KeysOfPlay(r: Play)
    ensures forall k :: k in PlayFields(r) ==> Group(k) == 2
  {}

  lemma KeysOfLogs(r: Logs)
    ensures forall k :: k in LogFields(r) ==> Group(k) == 3
  {}

  ghost predicate Carries(j: Json, f: map<Key, Json>) {
    j.Obj? && forall k :: k in f ==> k in j.fields && j.fields[k] == f[k]
  }

  lemma JsonCarries(r: Room)
    ensures var j := RoomJson(r);
      && Carries(j, IdentityFields(r.identity)) && Carries(j, SettingsFields(r.settings, r.seats))
      && Carries(j, PlayFields(r.play)) && Carries(j, LogFields(r.logs))
      && RoomIdOld !in j.fields
  {
    KeysOfIdentity(r.identity);
    KeysOfSettings(r.settings, r.seats);
    KeysOfPlay(r.play);
    KeysOfLogs(r.logs);
    hide IdentityFields, SettingsFields, PlayFields, LogFields;
    assert Group(RoomIdOld) == 4;
  }

  // ----- reading back each group -----

  ghost predicate Holds(j: Json, k: Key, v: Json) {
    j.Obj? && k in j.fields && j.fields[k] == v
  }

  ghost predicate NamesStored(j: Json, r: Identity) {
    && Holds(j, RoomId, Str(r.roomId)) && Holds(j, RoomCode, Str(r.roomCode)) && Holds(j, RoomType, Str(r.roomType))
    && Holds(j, Visibility, Str(r.visibility)) && Holds(j, Status, Str(r.status))
  }

  ghost predicate TimesStored(j: Json, r: Identity) {
    && Holds(j, OwnerUserId, Num(r.ownerUserId)) && Holds(j, MaxPlayers, Num(r.maxPlayers))
    && Holds(j, CreatedAt, Num(r.createdAt)) && Holds(j, LastActiveAt, Num(r.lastActiveAt))
    && Holds(j, EmptySince, if r.emptySince.Some? then Num(r.emptySince.value) else Null)
  }

  lemma NamesAreStored(j: Json, r: Identity)
    requires Carries(j, IdentityFields(r))
    ensures NamesStored(j, r)
  {}

  lemma TimesAreStored(j: Json, r: Identity)
    requires Carries(j, IdentityFields(r))
    ensures TimesStored(j, r)
  {}

  lemma IdentityReadsBack(j: Json, r: Identity, now: int)
    requires NamesStored(j, r) && TimesStored(j, r) && RoomIdOld !in j.fields
    ensures IdentityOf(j, now) == Got(KeptIdentity(r, now))
  {}

  lemma SettingsReadBack(j: Json, r: Settings, seats: seq<SeatRecord>)
    requires Carries(j, SettingsFields(r, seats)) && |seats| == SEATS
    ensures SettingsOf(j) == Got(KeptSettings(r))
    ensures SeatsOf(ItemsOf(j, Seats), SEATS) == Got(PlainSeats(seats))
  {
    hide SeatsJson, SeatsOf, Plain;
    SeatsReadBack(seats, SEATS);
    assert PlainSeats(seats)[..SEATS] == PlainSeats(seats);
  }

  lemma LogsReadBack(j: Json, r: Logs)
    requires Carries(j, LogFields(r))
    ensures LogsOf(j) == Got(KeptLogs(r))
  {
    hide HandsJson, HandsOf, LinesJson, LinesOf, EventsJson, EventsOf, EventLog.Tail, WithEnvelope;
    HandsReadBack(r.handHistory);
    LinesReadBack(r.activityLog);
    EventsReadBack(r.events);
  }

  /** The collections of the table come back whole. */
  lemma CollectionsReadBack(r: Play)
    requires (forall i | i in r.players :: 0 <= i < SEATS) && forall i | i in r.pending :: 0 <= i < SEATS
    ensures CardsOf(CardsJson(r.board)) == Got(r.board) && CardsOf(CardsJson(r.deck)) == Got(r.deck)
    ensures RowsOf(RowsJson(r.players, SEATS)) == Got(r.players)
    ensures SeatNumbersOf(SeatNumbersJson(r.pending, SEATS)) == r.pending
  {
    CardsReadBack(r.board);
    CardsReadBack(r.deck);
    RowsReadBack(r.players, SEATS);
    SeatNumbersReadBack(r.pending, SEATS);
    assert Below(r.players, SEATS) == r.players;
    assert SeatsBelow(r.pending, SEATS) == r.pending;
  }

  ghost predicate NumbersStored(j: Json, r: Play) {
    && Holds(j, HandNum, Num(r.handNum)) && Holds(j, DealerSeatIdx, Num(r.dealer)) && Holds(j, Pot, Num(r.pot))
    && Holds(j, CurrentMaxBet, Num(r.currentMaxBet)) && Holds(j, MinRaise, Num(r.minRaise))
    && Holds(j, TurnNonce, Num(r.turnNonce)) && Holds(j, RoundName, Str(r.round))
  }

  ghost predicate PlacesStored(j: Json, r: Play) {
    && Holds(j, SbSeatIdx, SeatOrNull(r.sb)) && Holds(j, BbSeatIdx, SeatOrNull(r.bb))
    && Holds(j, ActiveSeatIdx, SeatOrNull(r.active)) && Holds(j, LastActorSeatIdx, SeatOrNull(r.lastActor))
  }

  ghost predicate ListsStored(j: Json, r: Play) {
    && Holds(j, CommunityCards, Arr(CardsJson(r.board))) && Holds(j, Deck, Arr(CardsJson(r.deck)))
    && Holds(j, PendingActionSeats, Arr(SeatNumbersJson(r.pending, SEATS)))
    && Holds(j, PlayerRows, Arr(RowsJson(r.players, SEATS)))
  }

  lemma NumbersAreStored(j: Json, r: Play)
    requires Carries(j, PlayFields(r))
    ensures NumbersStored(j, r)
  {
    hide CardsJson, RowsJson, SeatNumbersJson, SeatOrNull;
  }

  lemma PlacesAreStored(j: Json, r: Play)
    requires Carries(j, PlayFields(r))
    ensures PlacesStored(j, r)
  {
    hide CardsJson, RowsJson, SeatNumbersJson, SeatOrNull;
  }

  lemma ListsAreStored(j: Json, r: Play)
    requires Carries(j, PlayFields(r))
    ensures ListsStored(j, r)
  {
    hide CardsJson, RowsJson, SeatNumbersJson, SeatOrNull;
  }

  lemma PlayReadsBack(j: Json, r: Play, bigBlind: int)
    requires NumbersStored(j, r) && PlacesStored(j, r) && ListsStored(j, r)
    requires (forall i | i in r.players :: 0 <= i < SEATS) && forall i | i in r.pending :: 0 <= i < SEATS
    ensures PlayOf(j, bigBlind) == Got(KeptPlay(r))
  {
    hide CardsJson, CardsOf, RowsJson, RowsOf, SeatNumbersJson, SeatNumbersOf;
    CollectionsReadBack(r);
  }

  /** For every room, what the reader makes of the writer's output. */
  lemma RoomReadsBack(r: Room, now: int)
    requires SeatNumbered(r)
    ensures RoomOf(RoomJson(r), now) == Got(Kept(r, now))
  {
    hide IdentityOf, SettingsOf, PlayOf, LogsOf, RoomJson, Carries, SeatsOf, ItemsOf;
    hide NamesStored, TimesStored, NumbersStored, PlacesStored, ListsStored, KeptIdentity, KeptPlay, KeptLogs, PlainSeats;
    var j := RoomJson(r);
    JsonCarries(r);
    NamesAreStored(j, r.identity);
    TimesAreStored(j, r.identity);
    IdentityReadsBack(j, r.identity, now);
    SettingsReadBack(j, r.settings, r.seats);
    NumbersAreStored(j, r.play);
    PlacesAreStored(j, r.play);
    ListsAreStored(j, r.play);
    PlayReadsBack(j, r.play, KeptSettings(r.settings).bigBlind);
    LogsReadBack(j, r.logs);
  }

  // ----- which rooms come back unchanged -----

  function Unplugged(seats: seq<SeatRecord>): seq<SeatRecord> {
    seq(|seats|, i requires 0 <= i < |seats| => seats[i].(socketId := ""))
  }

  /** The same room in a new process: no sockets, host, voice or acks, and empty since now if it was not. */
  function Restored(r: Room, now: int): Room {
    r.(seats := Unplugged(r.seats), links := NO_LINKS,
       identity := r.identity.(emptySince := if r.identity.emptySince.Some? then r.identity.emptySince else Some(now)))
  }

  /** Blank empty seats, and AI seats with a name only. */
  predicate PlainSeat(s: SeatRecord) {
    match s.kind
    case Empty => s.(socketId := "") == FREE_SEAT
    case AI => s.(socketId := "") == FREE_SEAT.(kind := AI, name := s.name)
    case Human => true
  }

  predicate IdentityOk(r: Identity) {
    (r.roomCode != "" || r.roomId == "") && r.roomType != ""
  }

  predicate SettingsOk(r: Settings) {
    1 <= r.totalHands <= 50 && r.initialChips >= 1000 && 1 <= r.smallBlind <= r.bigBlind
  }

  predicate PlayOk(r: Play) {
    && r.handNum >= 0 && r.pot >= 0 && r.currentMaxBet >= 0 && r.minRaise >= 1 && r.turnNonce >= 0
    && r.sb >= -1 && r.bb >= -1 && r.active >= -1 && r.lastActor >= -1
  }

  ghost predicate EventsOk(events: seq<EventLog.Entry>) {
    |events| <= EventLog.LIMIT && forall i :: 0 <= i < |events| ==> events[i].envelope != []
  }

  ghost predicate WithinBounds(r: Room) {
    && IdentityOk(r.identity) && SettingsOk(r.settings) && PlayOk(r.play) && EventsOk(r.logs.events)
    && forall i :: 0 <= i < |r.seats| ==> PlainSeat(r.seats[i])
  }

  lemma {:induction false} EnvelopesKept(events: seq<EventLog.Entry>)
    ensures |WithEnvelope(events)| <= |events|
    ensures forall i :: 0 <= i < |WithEnvelope(events)| ==> WithEnvelope(events)[i].envelope != []
    ensures (forall i :: 0 <= i < |events| ==> events[i].envelope != []) ==> WithEnvelope(events) == events
  {
    if events != [] {
      EnvelopesKept(events[..|events| - 1]);
    }
  }

  lemma EventsUnchangedIff(events: seq<EventLog.Entry>)
    ensures EventLog.Tail(WithEnvelope(events)) == events <==> EventsOk(events)
  {
    EnvelopesKept(events);
    hide WithEnvelope;
  }

  lemma SeatsUnchangedIff(seats: seq<SeatRecord>)
    ensures PlainSeats(seats) == Unplugged(seats) <==> forall i :: 0 <= i < |seats| ==> PlainSeat(seats[i])
  {
    forall i | 0 <= i < |seats|
      ensures Plain(seats[i]) == seats[i].(socketId := "") <==> PlainSeat(seats[i])
    {}
    hide Plain, PlainSeat;
    if PlainSeats(seats) == Unplugged(seats) {
      forall i | 0 <= i < |seats| ensures PlainSeat(seats[i]) {
        assert PlainSeats(seats)[i] == Unplugged(seats)[i];
      }
    }
  }

  lemma IdentityUnchangedIff(r: Identity, now: int)
    ensures KeptIdentity(r, now) == r.(emptySince := if r.emptySince.Some? then r.emptySince else Some(now)) <==> IdentityOk(r)
  {}

  lemma SettingsUnchangedIff(r: Settings)
    ensures KeptSettings(r) == r <==> SettingsOk(r)
  {}

  lemma PlayUnchangedIff(r: Play)
    ensures KeptPlay(r) == r <==> PlayOk(r)
  {}

  /**
    Writing a room and reading it back restores every field of every seat, player, card, bet,
    hand and event exactly when the room is within the reader's bounds.
    */
  lemma SnapshotRoundTrip(r: Room, now: int)
    requires SeatNumbered(r)
    ensures RoomOf(RoomJson(r), now) == Got(Restored(r, now)) <==> WithinBounds(r)
  {
    hide RoomOf, RoomJson, EventLog.Tail, WithEnvelope, PlainSeats, Unplugged, PlainSeat, EventsOk;
    hide KeptIdentity, KeptSettings, KeptPlay, IdentityOk, SettingsOk, PlayOk;
    RoomReadsBack(r, now);
    IdentityUnchangedIff(r.identity, now);
    SettingsUnchangedIff(r.settings);
    PlayUnchangedIff(r.play);
    EventsUnchangedIff(r.logs.events);
    SeatsUnchangedIff(r.seats);
  }
}
