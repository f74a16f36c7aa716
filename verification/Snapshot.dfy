/**
  The room snapshot writer and reader (room_to_json and room_from_json in main.cpp) over JSON
  values, with object keys as names rather than spellings.
  */
module Snapshot {
  import opened HoldemTypes
  import opened TableState
  import opened Base64
  import EventLog

  datatype Key =
    | SchemaVersion | SnapshotFormat | RoomId | RoomIdOld | RoomCode | RoomType | OwnerUserId | Visibility | Status | MaxPlayers
    | CreatedAt | LastActiveAt | EmptySince | HostSocketId | HostSocketIdOld
    | Seats | Started | TotalHands | InitialChips | SmallBlind | BigBlind
    | HandNum | DealerSeatIdx | SbSeatIdx | BbSeatIdx | Pot | RoundName | CommunityCards | Deck
    | CurrentMaxBet | MinRaise | ActiveSeatIdx | PendingActionSeats | PlayerRows | TurnNonce | LastActorSeatIdx
    | HandHistory | ActivityLog | EventSeq | EventRows | Closing | VoiceParticipants
    | Suit | Rank | CardValue
    | SeatIdx | ChipCount | CurrentBet | HandContribution | IsFolded | IsBankrupt
    | TotalBuyIn | TotalCommitted | PendingRebuy | SitOutUntilHand | Hand
    | Kind | Name | SocketId | Decor | AiManaged | ClientId | SessionId | GameplaySessionId
    | ReconnectToken | DisconnectedAt | AiTakeoverAt | UserId
    | Desc | Winners | Seq | EnvelopeB64

  datatype Json =
    | Null
    | Bool(flag: bool)
    | Num(n: int)
    | Str(s: string)
    | Arr(items: seq<Json>)
    | Obj(fields: map<Key, Json>)

  /** Reading may throw the library's type_error. */
  datatype Read<T> = Thrown | Got(value: T) {
    predicate IsFailure() { Thrown? }

    function PropagateFailure<U>(): Read<U>
      requires Thrown?
    {
      Thrown
    }

    function Extract(): T
      requires Got?
    {
      value
    }
  }

  // ----- json::value, contains and the type tests -----

  /** value(key, int): booleans convert, anything else that is not a number throws. */
  function IntOr(j: Json, k: Key, other: int): Read<int> {
    if !j.Obj? then Thrown
    else if k !in j.fields then Got(other)
    else match j.fields[k]
      case Num(n) => Got(n)
      case Bool(b) => Got(if b then 1 else 0)
      case _ => Thrown
  }

  /** value(key, int64_t) */
  function LongOr(j: Json, k: Key, other: int): Read<int> {
    if !j.Obj? then Thrown
    else if k !in j.fields then Got(other)
    else if j.fields[k].Num? then Got(j.fields[k].n) else Thrown
  }

  function BoolOr(j: Json, k: Key, other: bool): Read<bool> {
    if !j.Obj? then Thrown
    else if k !in j.fields then Got(other)
    else if j.fields[k].Bool? then Got(j.fields[k].flag) else Thrown
  }

  function StrOr(j: Json, k: Key, other: string): Read<string> {
    if !j.Obj? then Thrown
    else if k !in j.fields then Got(other)
    else if j.fields[k].Str? then Got(j.fields[k].s) else Thrown
  }

  /** Present and not null: then it has to be a string. */
  function TextIf(j: Json, k: Key, other: string): Read<string> {
    if !j.Obj? || k !in j.fields || j.fields[k].Null? then Got(other)
    else if j.fields[k].Str? then Got(j.fields[k].s) else Thrown
  }

  /** Present and a whole number, or else the other value. */
  function NumIf(j: Json, k: Key, other: int): int {
    if j.Obj? && k in j.fields && j.fields[k].Num? then j.fields[k].n else other
  }

  function ItemsOf(j: Json, k: Key): seq<Json> {
    if j.Obj? && k in j.fields && j.fields[k].Arr? then j.fields[k].items else []
  }

  function Clamp(x: int, lo: int, hi: int): int {
    if x < lo then lo else if hi < x then hi else x
  }

  // ----- cards -----

  function CardJson(c: Card): Json {
    Obj(map[Suit := Str(c.s), Rank := Str(c.r), CardValue := Num(c.v)])
  }

  function CardOf(j: Json): Read<Card> {
    if !j.Obj? then Got(Card("", "", 0))
    else
      var s :- StrOr(j, Suit, "");
      var r :- StrOr(j, Rank, "");
      var v :- IntOr(j, CardValue, 0);
      Got(Card(s, r, v))
  }

  function CardsJson(cs: seq<Card>): seq<Json> {
    if cs == [] then [] else [CardJson(cs[0])] + CardsJson(cs[1..])
  }

  function CardsOf(items: seq<Json>): Read<seq<Card>> {
    if items == [] then Got([])
    else
      var c :- CardOf(items[0]);
      var rest :- CardsOf(items[1..]);
      Got([c] + rest)
  }

  lemma {:induction false} CardsReadBack(cs: seq<Card>)
    ensures CardsOf(CardsJson(cs)) == Got(cs)
  {
    if cs != [] {
      CardsReadBack(cs[1..]);
      assert cs == [cs[0]] + cs[1..];
      assert CardsJson(cs)[1..] == CardsJson(cs[1..]);
      assert CardOf(CardJson(cs[0])) == Got(cs[0]);
    }
  }

  // ----- players -----

  function PlayerJson(idx: int, p: Player): Json {
    Obj(map[
      SeatIdx := Num(idx), ChipCount := Num(p.chips), CurrentBet := Num(p.currentBet),
      HandContribution := Num(p.contribution), IsFolded := Bool(p.folded), IsBankrupt := Bool(p.bankrupt),
      TotalBuyIn := Num(p.totalBuyIn), PendingRebuy := Num(p.pendingRebuy),
      SitOutUntilHand := Num(p.sitOutUntil), Hand := Arr(CardsJson(p.hand))])
  }

  function PlayerOf(j: Json): Read<Player> {
    var seatIdx :- IntOr(j, SeatIdx, -1);
    var chips :- IntOr(j, ChipCount, 1000);
    var bet :- IntOr(j, CurrentBet, 0);
    var contribution :- IntOr(j, HandContribution, 0);
    var folded :- BoolOr(j, IsFolded, false);
    var bankrupt :- BoolOr(j, IsBankrupt, false);
    var buyIn :- IntOr(j, TotalBuyIn, 1000);
    var rebuy :- IntOr(j, PendingRebuy, 0);
    var sitOut :- IntOr(j, SitOutUntilHand, 0);
    var hand :- CardsOf(ItemsOf(j, Hand));
    Got(Player(chips, bet, contribution, folded, bankrupt, hand, NumIf(j, TotalCommitted, buyIn), rebuy, sitOut))
  }

  lemma PlayerReadsBack(idx: int, p: Player)
    ensures PlayerOf(PlayerJson(idx, p)) == Got(p)
  {
    hide CardsOf, CardsJson;
    CardsReadBack(p.hand);
  }

  /** The rows of the players below seat n, in seat order, as the std::map is walked. */
  function RowsJson(ps: Players, n: nat): seq<Json> {
    if n == 0 then []
    else RowsJson(ps, n - 1) + if n - 1 in ps then [Arr([Num(n - 1), PlayerJson(n - 1, ps[n - 1])])] else []
  }

  /** A row that is not a pair is skipped. */
  function AddRow(ps: Players, row: Json): Read<Players> {
    if !row.Arr? || |row.items| < 2 then Got(ps)
    else if row.items[0].Num? then
      var p :- PlayerOf(row.items[1]);
      Got(ps[row.items[0].n := p])
    else if row.items[0].Bool? then
      var p :- PlayerOf(row.items[1]);
      Got(ps[(if row.items[0].flag then 1 else 0) := p])
    else Thrown
  }

  function RowsOf(items: seq<Json>): Read<Players> {
    if items == [] then Got(map[])
    else
      var before :- RowsOf(items[..|items| - 1]);
      AddRow(before, items[|items| - 1])
  }

  function Below(ps: Players, n: nat): Players {
    map i | i in ps && 0 <= i < n :: ps[i]
  }

  lemma RowReadsBack(before: Players, i: int, p: Player)
    ensures AddRow(before, Arr([Num(i), PlayerJson(i, p)])) == Got(before[i := p])
  {
    PlayerReadsBack(i, p);
    hide PlayerOf, PlayerJson;
  }

  lemma BelowStep(ps: Players, n: nat)
    requires n > 0
    ensures Below(ps, n) == if n - 1 in ps then Below(ps, n - 1)[n - 1 := ps[n - 1]] else Below(ps, n - 1)
  {}

  lemma RowsOfAppend(items: seq<Json>, row: Json)
    ensures RowsOf(items + [row]) == if RowsOf(items).Got? then AddRow(RowsOf(items).value, row) else Thrown
  {
    hide AddRow;
    assert (items + [row])[..|items|] == items;
  }

  lemma RowsJsonStep(ps: Players, n: nat)
    requires n > 0
    ensures RowsJson(ps, n) == if n - 1 in ps
      then RowsJson(ps, n - 1) + [Arr([Num(n - 1), PlayerJson(n - 1, ps[n - 1])])] else RowsJson(ps, n - 1)
  {
    hide PlayerJson;
  }

  lemma {:induction false} RowsReadBack(ps: Players, n: nat)
    ensures RowsOf(RowsJson(ps, n)) == Got(Below(ps, n))
  {
    if n == 0 {
      assert Below(ps, 0) == map[];
    } else {
      hide AddRow, PlayerJson, Below, RowsOf, RowsJson;
      RowsReadBack(ps, n - 1);
      BelowStep(ps, n);
      RowsJsonStep(ps, n);
      if n - 1 in ps {
        RowReadsBack(Below(ps, n - 1), n - 1, ps[n - 1]);
        RowsOfAppend(RowsJson(ps, n - 1), Arr([Num(n - 1), PlayerJson(n - 1, ps[n - 1])]));
      }
    }
  }

  // ----- seats -----

  datatype SeatRecord = SeatRecord(
    kind: SeatType, socketId: string, name: string, clientId: string, decor: string, userId: int,
    sessionId: string, reconnectToken: string, aiManaged: bool, aiTakeoverAt: int, disconnectedAt: int)

  const FREE_SEAT := SeatRecord(SeatType.Empty, "", "", "", "none", 0, "", "", false, 0, 0)

  function OptStr(s: string): Json {
    if s != "" then Str(s) else Null
  }

  function OptNum(n: int): Json {
    if n != 0 then Num(n) else Null
  }

  function HumanFields(s: SeatRecord): map<Key, Json> {
    map[
      Kind := Str("player"), SocketId := Null, Name := Str(s.name), Decor := Str(s.decor),
      AiManaged := Bool(s.aiManaged), ClientId := OptStr(s.clientId), SessionId := OptStr(s.sessionId),
      ReconnectToken := OptStr(s.reconnectToken), DisconnectedAt := OptNum(s.disconnectedAt),
      AiTakeoverAt := OptNum(s.aiTakeoverAt)]
  }

  function SeatJson(s: SeatRecord): Json {
    match s.kind
    case Empty => Null
    case AI => Obj(map[Kind := Str("ai"), Name := Str(s.name)])
    case Human =>
      if s.userId != 0 then Obj(HumanFields(s)[UserId := Num(s.userId)]) else Obj(HumanFields(s))
  }

  function HumanOf(j: Json): Read<SeatRecord> {
    var name :- StrOr(j, Name, "Player");
    var clientId :- TextIf(j, ClientId, "");
    var session :- TextIf(j, SessionId, "");
    var sessionId :- if session == "" then TextIf(j, GameplaySessionId, "") else Got(session);
    var token :- TextIf(j, ReconnectToken, "");
    var decor :- StrOr(j, Decor, "none");
    var managed :- BoolOr(j, AiManaged, false);
    Got(SeatRecord(Human, "", name, clientId, decor, NumIf(j, UserId, 0), sessionId, token, managed,
                   NumIf(j, AiTakeoverAt, 0), NumIf(j, DisconnectedAt, 0)))
  }

  function SeatOf(j: Json): Read<SeatRecord> {
    if !j.Obj? then Got(FREE_SEAT)
    else
      var kind :- StrOr(j, Kind, "");
      if kind == "ai" then
        var name :- StrOr(j, Name, "AI");
        Got(FREE_SEAT.(kind := AI, name := name))
      else if kind == "player" then HumanOf(j)
      else Got(FREE_SEAT)
  }

  /** What is left of a seat: empty seats become blank, AI seats keep only their name. */
  function Plain(s: SeatRecord): SeatRecord {
    match s.kind
    case Empty => FREE_SEAT
    case AI => FREE_SEAT.(kind := AI, name := s.name)
    case Human => s.(socketId := "")
  }

  /** What is stored for a player's seat. */
  ghost predicate HumanStored(s: SeatRecord, f: map<Key, Json>) {
    && {Name, Decor, AiManaged, ClientId, SessionId, ReconnectToken, DisconnectedAt, AiTakeoverAt} <= f.Keys
    && f[Name] == Str(s.name) && f[Decor] == Str(s.decor) && f[AiManaged] == Bool(s.aiManaged)
    && f[ClientId] == OptStr(s.clientId) && f[SessionId] == OptStr(s.sessionId)
    && f[ReconnectToken] == OptStr(s.reconnectToken)
    && f[DisconnectedAt] == OptNum(s.disconnectedAt) && f[AiTakeoverAt] == OptNum(s.aiTakeoverAt)
    && (UserId in f <==> s.userId != 0) && (UserId in f ==> f[UserId] == Num(s.userId))
    && GameplaySessionId !in f
  }

  lemma HumanIsStored(s: SeatRecord)
    requires s.kind == Human
    ensures HumanStored(s, SeatJson(s).fields)
  {
    hide OptStr, OptNum;
  }

  lemma HumanReadsBack(s: SeatRecord, j: Json)
    requires s.kind == Human && j.Obj? && HumanStored(s, j.fields)
    ensures HumanOf(j) == Got(s.(socketId := ""))
  {
  }

  lemma SeatReadsBack(s: SeatRecord)
    ensures SeatOf(SeatJson(s)) == Got(Plain(s))
  {
    assert "ai"[0] == 'a' && "player"[0] == 'p';
    if s.kind == Human {
      HumanIsStored(s);
      HumanReadsBack(s, SeatJson(s));
      hide HumanOf, HumanStored;
    }
  }

  function SeatsJson(seats: seq<SeatRecord>): seq<Json> {
    seq(|seats|, i requires 0 <= i < |seats| => SeatJson(seats[i]))
  }

  /** The first n of the ten seats, read from the first ten entries. */
  function SeatsOf(items: seq<Json>, n: nat): Read<seq<SeatRecord>> {
    if n == 0 then Got([])
    else
      var before :- SeatsOf(items, n - 1);
      var last :- if n <= |items| then SeatOf(items[n - 1]) else Got(FREE_SEAT);
      Got(before + [last])
  }

  function PlainSeats(seats: seq<SeatRecord>): seq<SeatRecord> {
    seq(|seats|, i requires 0 <= i < |seats| => Plain(seats[i]))
  }

  lemma {:induction false} SeatsReadBack(seats: seq<SeatRecord>, n: nat)
    requires n <= |seats|
    ensures SeatsOf(SeatsJson(seats), n) == Got(PlainSeats(seats)[..n])
  {
    hide SeatJson, SeatOf, Plain;
    if n > 0 {
      SeatsReadBack(seats, n - 1);
      SeatReadsBack(seats[n - 1]);
      assert PlainSeats(seats)[..n] == PlainSeats(seats)[..n - 1] + [Plain(seats[n - 1])];
    }
  }

  // ----- hand history -----

  datatype WinnerInfo = WinnerInfo(seatIdx: int, name: string)

  datatype MatchHand = MatchHand(handNum: int, winners: seq<WinnerInfo>, desc: string)

  function WinnersJson(ws: seq<WinnerInfo>): seq<Json> {
    if ws == [] then []
    else [Obj(map[SeatIdx := Num(ws[0].seatIdx), Name := Str(ws[0].name)])] + WinnersJson(ws[1..])
  }

  function WinnersOf(items: seq<Json>): Read<seq<WinnerInfo>> {
    if items == [] then Got([])
    else
      var seatIdx :- IntOr(items[0], SeatIdx, -1);
      var name :- StrOr(items[0], Name, "");
      var rest :- WinnersOf(items[1..]);
      Got([WinnerInfo(seatIdx, name)] + rest)
  }

  function HandJson(h: MatchHand): Json {
    Obj(map[HandNum := Num(h.handNum), Desc := Str(h.desc), Winners := Arr(WinnersJson(h.winners))])
  }

  function HandOf(j: Json): Read<MatchHand> {
    var handNum :- IntOr(j, HandNum, 0);
    var desc :- StrOr(j, Desc, "");
    var winners :- WinnersOf(ItemsOf(j, Winners));
    Got(MatchHand(handNum, winners, desc))
  }

  function HandsJson(hs: seq<MatchHand>): seq<Json> {
    if hs == [] then [] else [HandJson(hs[0])] + HandsJson(hs[1..])
  }

  function HandsOf(items: seq<Json>): Read<seq<MatchHand>> {
    if items == [] then Got([])
    else
      var h :- HandOf(items[0]);
      var rest :- HandsOf(items[1..]);
      Got([h] + rest)
  }

  lemma {:induction false} WinnersReadBack(ws: seq<WinnerInfo>)
    ensures WinnersOf(WinnersJson(ws)) == Got(ws)
  {
    if ws != [] {
      WinnersReadBack(ws[1..]);
      assert ws == [ws[0]] + ws[1..];
      assert WinnersJson(ws)[1..] == WinnersJson(ws[1..]);
    }
  }

  lemma HandReadsBack(h: MatchHand)
    ensures HandOf(HandJson(h)) == Got(h)
  {
    WinnersReadBack(h.winners);
    hide WinnersOf, WinnersJson;
  }

  lemma {:induction false} HandsReadBack(hs: seq<MatchHand>)
    ensures HandsOf(HandsJson(hs)) == Got(hs)
  {
    if hs != [] {
      HandsReadBack(hs[1..]);
      HandReadsBack(hs[0]);
      hide HandOf, HandJson;
      assert hs == [hs[0]] + hs[1..];
      assert HandsJson(hs)[1..] == HandsJson(hs[1..]);
    }
  }

  // ----- event log -----

  /** Bytes as the characters of a JSON string, and back. */
  function Text(bytes: seq<byte>): string {
    seq(|bytes|, i requires 0 <= i < |bytes| => bytes[i] as char)
  }

  function Bytes(text: string): seq<byte> {
    seq(|text|, i requires 0 <= i < |text| => text[i] as int % 256)
  }

  lemma TextReadsBack(bytes: seq<byte>)
    ensures Bytes(Text(bytes)) == bytes
  {}

  /** What base64_decode returns. */
  function Decoded(s: seq<byte>): seq<byte> {
    var v := Indices(s);
    seq(6 * |v| / 8, j requires 0 <= j < 6 * |v| / 8 => Octet(v, j))
  }

  lemma DecodedEncoding(s: seq<byte>)
    ensures Decoded(Rfc4648(s)) == s
  {
    hide Octet, Rfc4648;
    RoundTrip(s, Decoded(Rfc4648(s)));
  }

  function EventJson(e: EventLog.Entry): Json {
    Obj(map[Seq := Num(e.number), SeatIdx := Num(e.seat), CreatedAt := Num(e.createdAt),
            EnvelopeB64 := Str(Text(Rfc4648(e.envelope)))])
  }

  function EnvelopeOf(j: Json): seq<byte> {
    if j.Obj? && EnvelopeB64 in j.fields && j.fields[EnvelopeB64].Str? then Decoded(Bytes(j.fields[EnvelopeB64].s))
    else []
  }

  /** Entries that are not objects, and entries without an envelope, are skipped. */
  function AddEvent(log: seq<EventLog.Entry>, j: Json): Read<seq<EventLog.Entry>> {
    if !j.Obj? then Got(log)
    else
      var number :- LongOr(j, Seq, 0);
      var seat :- IntOr(j, SeatIdx, -1);
      var createdAt :- LongOr(j, CreatedAt, 0);
      Got(if EnvelopeOf(j) == [] then log else log + [EventLog.Entry(number, EnvelopeOf(j), seat, createdAt)])
  }

  function EventsOf(items: seq<Json>): Read<seq<EventLog.Entry>> {
    if items == [] then Got([])
    else
      var before :- EventsOf(items[..|items| - 1]);
      AddEvent(before, items[|items| - 1])
  }

  function EventsJson(log: seq<EventLog.Entry>): seq<Json> {
    if log == [] then [] else EventsJson(log[..|log| - 1]) + [EventJson(log[|log| - 1])]
  }

  function WithEnvelope(log: seq<EventLog.Entry>): seq<EventLog.Entry> {
    if log == [] then []
    else WithEnvelope(log[..|log| - 1]) + if log[|log| - 1].envelope != [] then [log[|log| - 1]] else []
  }

  lemma EventReadsBack(log: seq<EventLog.Entry>, e: EventLog.Entry)
    ensures AddEvent(log, EventJson(e)) == Got(if e.envelope != [] then log + [e] else log)
  {
    hide Rfc4648, Decoded, Text, Bytes;
    TextReadsBack(Rfc4648(e.envelope));
    DecodedEncoding(e.envelope);
  }

  lemma EventsOfAppend(items: seq<Json>, j: Json)
    ensures EventsOf(items + [j]) == if EventsOf(items).Got? then AddEvent(EventsOf(items).value, j) else Thrown
  {
    hide AddEvent;
    assert (items + [j])[..|items|] == items;
  }

  lemma {:induction false} EventsReadBack(log: seq<EventLog.Entry>)
    ensures EventsOf(EventsJson(log)) == Got(WithEnvelope(log))
  {
    hide AddEvent, EventJson;
    if log != [] {
      var init, last := log[..|log| - 1], log[|log| - 1];
      EventsReadBack(init);
      EventReadsBack(WithEnvelope(init), last);
      assert EventsJson(log) == EventsJson(init) + [EventJson(last)];
      assert WithEnvelope(log) == if last.envelope != [] then WithEnvelope(init) + [last] else WithEnvelope(init);
      hide EventsOf, EventsJson, WithEnvelope;
      EventsOfAppend(EventsJson(init), EventJson(last));
    }
  }

  // ----- activity log and pending seats -----

  function LinesJson(lines: seq<string>): seq<Json> {
    seq(|lines|, i requires 0 <= i < |lines| => Str(lines[i]))
  }

  function LinesOf(items: seq<Json>): seq<string> {
    if items == [] then []
    else (if items[0].Str? then [items[0].s] else []) + LinesOf(items[1..])
  }

  lemma {:induction false} LinesReadBack(lines: seq<string>)
    ensures LinesOf(LinesJson(lines)) == lines
  {
    if lines != [] {
      LinesReadBack(lines[1..]);
      assert LinesJson(lines)[1..] == LinesJson(lines[1..]);
    }
  }

  function SeatNumbersJson(s: set<int>, n: nat): seq<Json> {
    if n == 0 then [] else SeatNumbersJson(s, n - 1) + if n - 1 in s then [Num(n - 1)] else []
  }

  function SeatNumbersOf(items: seq<Json>): set<int> {
    if items == [] then {}
    else SeatNumbersOf(items[..|items| - 1]) + if items[|items| - 1].Num? then {items[|items| - 1].n} else {}
  }

  lemma SeatNumbersAppend(items: seq<Json>, n: int)
    ensures SeatNumbersOf(items + [Num(n)]) == SeatNumbersOf(items) + {n}
  {
    assert (items + [Num(n)])[..|items|] == items;
  }

  function SeatsBelow(s: set<int>, n: nat): set<int> {
    set i | i in s && 0 <= i < n
  }

  lemma SeatsBelowStep(s: set<int>, n: nat)
    requires n > 0
    ensures SeatsBelow(s, n) == SeatsBelow(s, n - 1) + if n - 1 in s then {n - 1} else {}
  {}

  lemma SeatNumbersStep(s: set<int>, n: nat)
    requires n > 0
    ensures SeatNumbersJson(s, n) == if n - 1 in s then SeatNumbersJson(s, n - 1) + [Num(n - 1)] else SeatNumbersJson(s, n - 1)
  {}

  lemma {:induction false} SeatNumbersReadBack(s: set<int>, n: nat)
    ensures SeatNumbersOf(SeatNumbersJson(s, n)) == SeatsBelow(s, n)
  {
    if n > 0 {
      SeatNumbersReadBack(s, n - 1);
      SeatNumbersAppend(SeatNumbersJson(s, n - 1), n - 1);
      SeatNumbersStep(s, n);
      SeatsBelowStep(s, n);
      hide SeatNumbersOf, SeatNumbersJson, SeatsBelow;
      assert n - 1 !in s ==> SeatsBelow(s, n) == SeatsBelow(s, n - 1);
    }
  }
}
