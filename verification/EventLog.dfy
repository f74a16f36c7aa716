/**
  The reconnect log: append_room_event and replay_missed_events of main.cpp, and their
  counterparts appendRoomEvent and replayMissedRoomEvents in server.js.
  */
module EventLog {
  import opened Common
  import Base64

  /** kRoomEventLogLimit and ROOM_EVENT_LOG_LIMIT. */
  const LIMIT := 600

  /** seat < 0 marks a room-wide event; otherwise only that seat may see it. */
  datatype Entry = Entry(number: int, envelope: seq<Base64.byte>, seat: int, createdAt: int)

  /** What a session at `seat` that has seen everything up to `cursor` has missed. */
  predicate IsMissed(e: Entry, cursor: int, seat: int) {
    e.number > cursor && (e.seat < 0 || e.seat == seat)
  }

  function Missed(log: seq<Entry>, cursor: int, seat: int): seq<Entry> {
    if log == [] then []
    else
      var last := log[|log| - 1];
      Missed(log[..|log| - 1], cursor, seat) + if IsMissed(last, cursor, seat) then [last] else []
  }

  /** The newest sequence number sent, or the given one if nothing was sent. */
  function LastOf(sent: seq<Entry>, otherwise: int): int {
    if sent == [] then otherwise else sent[|sent| - 1].number
  }

  /** The largest of the given number and the sequence numbers sent. */
  function HighestOf(sent: seq<Entry>, otherwise: int): int {
    if sent == [] then otherwise else Max(HighestOf(sent[..|sent| - 1], otherwise), sent[|sent| - 1].number)
  }

  lemma {:induction false} HighestCovers(sent: seq<Entry>, otherwise: int)
    ensures HighestOf(sent, otherwise) >= otherwise
    ensures forall i :: 0 <= i < |sent| ==> sent[i].number <= HighestOf(sent, otherwise)
  {
    if sent != [] {
      HighestCovers(sent[..|sent| - 1], otherwise);
    }
  }

  // ----- the log -----

  /** Entry i of a room's history carries sequence number i + 1. */
  ghost predicate Numbered(history: seq<Entry>) {
    forall i :: 0 <= i < |history| ==> history[i].number == i + 1
  }

  /** The last LIMIT entries. */
  function Tail(history: seq<Entry>): (r: seq<Entry>)
    ensures |r| == if |history| <= LIMIT then |history| else LIMIT
  {
    if |history| <= LIMIT then history else history[|history| - LIMIT..]
  }

  class RoomLog {
    var eventSeq: int
    var log: seq<Entry>
    ghost var history: seq<Entry>

    /** The log is the tail of everything ever appended, numbered without gaps. */
    ghost predicate Valid()
      reads this
    {
      eventSeq == |history| && Numbered(history) && log == Tail(history)
    }

    constructor ()
      ensures Valid() && history == []
    {
      eventSeq, log, history := 0, [], [];
    }

    /** append_room_event: push back, then pop the front while over the limit. */
    method Append(envelope: seq<Base64.byte>, seat: int, now: int)
      requires Valid()
      modifies this
      ensures Valid() && history == old(history) + [Entry(old(eventSeq) + 1, envelope, seat, now)]
    {
      eventSeq := eventSeq + 1;
      log := log + [Entry(eventSeq, envelope, seat, now)];
      history := history + [Entry(eventSeq, envelope, seat, now)];
      ghost var h := history;
      while |log| > LIMIT
        invariant |log| >= LIMIT || log == h
        invariant |log| <= |h| && log == h[|h| - |log|..]
        invariant eventSeq == old(eventSeq) + 1 && history == h
        decreases |log|
      {
        log := log[1..];
      }
      TailIs(h, log);
    }

    /** appendRoomEvent of server.js: push, then splice off the excess in one go. */
    method AppendAndSplice(envelope: seq<Base64.byte>, seat: int, now: int)
      requires Valid()
      modifies this
      ensures Valid() && history == old(history) + [Entry(old(eventSeq) + 1, envelope, seat, now)]
    {
      eventSeq := eventSeq + 1;
      log := log + [Entry(eventSeq, envelope, seat, now)];
      history := history + [Entry(eventSeq, envelope, seat, now)];
      if |log| > LIMIT {
        log := log[|log| - LIMIT..];
      }
      TailIs(history, log);
    }
  }

  lemma TailIs(h: seq<Entry>, log: seq<Entry>)
    requires |log| <= |h| && log == h[|h| - |log|..]
    requires |log| <= LIMIT && (|log| == LIMIT || log == h)
    ensures log == Tail(h)
  {}

  // ----- replay -----

  /** The gameplay session of a player: none, an expired one, or one with its own cursor. */
  datatype Gameplay = NoGameplay | Expired | Known(lastSeen: int)

  class Session {
    var seat: int
    var lastSeen: int
    var gameplay: Gameplay

    constructor (seat: int, lastSeen: int, gameplay: Gameplay)
      ensures this.seat == seat && this.lastSeen == lastSeen && this.gameplay == gameplay
    {
      this.seat, this.lastSeen, this.gameplay := seat, lastSeen, gameplay;
    }

    function Cursor(): int
      reads this
    {
      if gameplay.Known? then Max(lastSeen, gameplay.lastSeen) else lastSeen
    }

    /** replay_missed_events: sends exactly the missed entries, in order, and moves the cursor. */
    method ReplayMissed(log: seq<Entry>) returns (sent: seq<Entry>)
      modifies this
      ensures sent == Missed(log, old(Cursor()), old(seat)) && seat == old(seat)
      ensures old(Cursor()) == if old(gameplay).Known? then Max(old(lastSeen), old(gameplay).lastSeen) else old(lastSeen)
      ensures lastSeen == HighestOf(sent, old(lastSeen))
      ensures gameplay == match old(gameplay)
        case NoGameplay => NoGameplay
        case Expired => Known(Max(0, lastSeen))
        case Known(seen) => Known(Max(seen, lastSeen))
    {
      var cursor := lastSeen;
      if gameplay.Known? {
        cursor := Max(cursor, gameplay.lastSeen);
      }
      sent := [];
      for i := 0 to |log|
        invariant sent == Missed(log[..i], cursor, seat)
        invariant seat == old(seat) && gameplay == old(gameplay) && lastSeen == HighestOf(sent, old(lastSeen))
      {
        assert log[..i + 1][..i] == log[..i];
        var entry := log[i];
        if entry.number <= cursor {
          continue;
        }
        if entry.seat >= 0 && entry.seat != seat {
          continue;
        }
        assert (sent + [entry])[..|sent|] == sent;
        sent := sent + [entry];
        lastSeen := Max(lastSeen, entry.number);
      }
      assert log[..|log|] == log;
      if gameplay != NoGameplay {
        gameplay := Known(Max(if gameplay.Known? then gameplay.lastSeen else 0, lastSeen));
      }
    }

    /** replayMissedRoomEvents of server.js, for a session with a single cursor. */
    method ReplayMissedNode(log: seq<Entry>) returns (sent: seq<Entry>)
      requires gameplay == NoGameplay
      modifies this
      ensures sent == Missed(log, old(lastSeen), old(seat)) && seat == old(seat) && gameplay == NoGameplay
      ensures lastSeen == LastOf(sent, old(lastSeen))
    {
      var cursor := lastSeen;
      sent := [];
      for i := 0 to |log|
        invariant sent == Missed(log[..i], cursor, seat)
        invariant seat == old(seat) && gameplay == NoGameplay && lastSeen == LastOf(sent, cursor)
      {
        assert log[..i + 1][..i] == log[..i];
        var entry := log[i];
        if entry.number <= cursor || (entry.seat >= 0 && entry.seat != seat) {
          continue;
        }
        sent := sent + [entry];
        lastSeen := entry.number;
      }
      assert log[..|log|] == log;
    }
  }

  // ----- what replay guarantees -----

  /** Sequence numbers rise along the log. */
  ghost predicate Rising(log: seq<Entry>) {
    forall i, j :: 0 <= i < j < |log| ==> log[i].number < log[j].number
  }

  /** Replay sends an entry exactly when it is retained, past the cursor, and room-wide or the seat's own. */
  lemma {:induction false} SentIffMissed(log: seq<Entry>, cursor: int, seat: int, e: Entry)
    ensures e in Missed(log, cursor, seat) <==> e in log && e.number > cursor && (e.seat < 0 || e.seat == seat)
  {
    if log != [] {
      var init, last := log[..|log| - 1], log[|log| - 1];
      SentIffMissed(init, cursor, seat, e);
      assert log == init + [last];
    }
  }

  /** In order, and therefore once each. */
  lemma {:induction false} SentInOrder(log: seq<Entry>, cursor: int, seat: int)
    requires Rising(log)
    ensures Rising(Missed(log, cursor, seat))
  {
    if log != [] {
      var init, last := log[..|log| - 1], log[|log| - 1];
      SentInOrder(init, cursor, seat);
      var before := Missed(init, cursor, seat);
      forall i | 0 <= i < |before| ensures before[i].number < last.number {
        SentIffMissed(init, cursor, seat, before[i]);
        var k :| 0 <= k < |init| && init[k] == before[i];
        assert log[k] == init[k];
      }
    }
  }

  /** With the cursor at or past everything sent, a second replay sends nothing. */
  lemma {:induction false} SecondReplayIsEmpty(log: seq<Entry>, cursor: int, seat: int, cursor': int)
    requires cursor' >= cursor
    requires forall i :: 0 <= i < |Missed(log, cursor, seat)| ==> Missed(log, cursor, seat)[i].number <= cursor'
    ensures Missed(log, cursor', seat) == []
  {
    if log != [] {
      var init, last := log[..|log| - 1], log[|log| - 1];
      var before := Missed(init, cursor, seat);
      var all := Missed(log, cursor, seat);
      forall i | 0 <= i < |before| ensures before[i].number <= cursor' {
        assert all[i] == before[i];
      }
      SecondReplayIsEmpty(init, cursor, seat, cursor');
      assert IsMissed(last, cursor, seat) ==> all[|all| - 1] == last;
    }
  }

  /** Two replays in a row: the second sends nothing. */
  method ReplayTwice(session: Session, log: seq<Entry>) returns (first: seq<Entry>, second: seq<Entry>)
    modifies session
    ensures first == Missed(log, old(session.Cursor()), old(session.seat))
    ensures second == []
  {
    ghost var cursor, seat := session.Cursor(), session.seat;
    first := session.ReplayMissed(log);
    ghost var cursor' := session.Cursor();
    HighestCovers(first, old(session.lastSeen));
    SecondReplayIsEmpty(log, cursor, seat, cursor');
    second := session.ReplayMissed(log);
  }

  /** The last entry sent from a rising log carries the highest number sent. */
  lemma LastCovers(log: seq<Entry>, cursor: int, seat: int)
    requires Rising(log)
    ensures var sent := Missed(log, cursor, seat);
      && LastOf(sent, cursor) >= cursor
      && forall i :: 0 <= i < |sent| ==> sent[i].number <= LastOf(sent, cursor)
  {
    var sent := Missed(log, cursor, seat);
    SentInOrder(log, cursor, seat);
    if sent != [] {
      SentIffMissed(log, cursor, seat, sent[|sent| - 1]);
    }
  }

  /** The same for server.js, whose cursor is the last number sent: it needs the log to rise. */
  method ReplayTwiceNode(session: Session, log: seq<Entry>) returns (first: seq<Entry>, second: seq<Entry>)
    requires session.gameplay == NoGameplay && Rising(log)
    modifies session
    ensures first == Missed(log, old(session.lastSeen), old(session.seat))
    ensures second == []
  {
    ghost var cursor, seat := session.lastSeen, session.seat;
    first := session.ReplayMissedNode(log);
    LastCovers(log, cursor, seat);
    SecondReplayIsEmpty(log, cursor, seat, session.lastSeen);
    second := session.ReplayMissedNode(log);
  }

  lemma {:induction false} HighestBelow(sent: seq<Entry>, otherwise: int, bound: int)
    requires otherwise < bound && forall i :: 0 <= i < |sent| ==> sent[i].number < bound
    ensures HighestOf(sent, otherwise) < bound
  {
    if sent != [] { HighestBelow(sent[..|sent| - 1], otherwise, bound); }
  }

  lemma {:induction false} AllNewer(log: seq<Entry>, c: int, d: int, seat: int)
    requires forall i :: 0 <= i < |log| ==> log[i].number > c && log[i].number > d
    ensures Missed(log, c, seat) == Missed(log, d, seat)
  {
    if log != [] { AllNewer(log[..|log| - 1], c, d, seat); }
  }

  /**
    Replaying a log, and again when it has grown, sends exactly what one replay of the grown log
    would have sent: the cursor neither repeats an event nor steps over one.
    */
  lemma TwoReplaysSendAll(a: seq<Entry>, b: seq<Entry>, cursor: int, seat: int)
    requires Rising(a + b) && forall i :: 0 <= i < |b| ==> b[i].number > cursor
    ensures var first := Missed(a, cursor, seat);
      first + Missed(a + b, HighestOf(first, cursor), seat) == Missed(a + b, cursor, seat)
  {
    hide Missed, HighestOf, Rising;
    var first := Missed(a, cursor, seat);
    var cursor' := HighestOf(first, cursor);
    MissedAppend(a, b, cursor, seat);
    MissedAppend(a, b, cursor', seat);
    HighestCovers(first, cursor);
    SecondReplayIsEmpty(a, cursor, seat, cursor');
    forall i | 0 <= i < |b| ensures b[i].number > cursor' {
      SentAreOlder(a, b, cursor, seat, i);
      HighestBelow(first, cursor, b[i].number);
    }
    AllNewer(b, cursor, cursor', seat);
    assert Missed(a + b, cursor', seat) == [] + Missed(b, cursor, seat);
  }

  lemma SentAreOlder(a: seq<Entry>, b: seq<Entry>, cursor: int, seat: int, i: nat)
    requires Rising(a + b) && i < |b|
    ensures forall k :: 0 <= k < |Missed(a, cursor, seat)| ==> Missed(a, cursor, seat)[k].number < b[i].number
  {
    var sent := Missed(a, cursor, seat);
    forall k | 0 <= k < |sent| ensures sent[k].number < b[i].number {
      SentIffMissed(a, cursor, seat, sent[k]);
      var j :| 0 <= j < |a| && a[j] == sent[k];
      assert (a + b)[j] == a[j] && (a + b)[|a| + i] == b[i];
    }
  }

  lemma {:induction false} MissedAppend(a: seq<Entry>, b: seq<Entry>, cursor: int, seat: int)
    ensures Missed(a + b, cursor, seat) == Missed(a, cursor, seat) + Missed(b, cursor, seat)
  {
    if b == [] {
      assert a + b == a;
    } else {
      var init, last := b[..|b| - 1], b[|b| - 1];
      MissedAppend(a, init, cursor, seat);
      assert (a + b)[..|a + b| - 1] == a + init;
    }
  }

  lemma {:induction false} NothingMissedBefore(a: seq<Entry>, cursor: int, seat: int)
    requires forall i :: 0 <= i < |a| ==> a[i].number <= cursor
    ensures Missed(a, cursor, seat) == []
  {
    if a != [] { NothingMissedBefore(a[..|a| - 1], cursor, seat); }
  }

  /**
    A session no more than 600 events behind misses nothing: replaying the retained log
    sends what replaying the whole history would.
    */
  lemma SmallGapLosesNothing(history: seq<Entry>, cursor: int, seat: int)
    requires Numbered(history) && cursor >= |history| - 600
    ensures Missed(Tail(history), cursor, seat) == Missed(history, cursor, seat)
  {
    if |history| > LIMIT {
      var cut := |history| - LIMIT;
      assert history == history[..cut] + history[cut..];
      MissedAppend(history[..cut], history[cut..], cursor, seat);
      NothingMissedBefore(history[..cut], cursor, seat);
    }
  }

  /** The retained log holds at most 600 entries, with the consecutive numbers that end at the newest event. */
  lemma RetainedNumbers(history: seq<Entry>, i: nat)
    requires Numbered(history) && i < |Tail(history)|
    ensures |Tail(history)| == if |history| <= 600 then |history| else 600
    ensures Tail(history)[i].number == |history| - |Tail(history)| + 1 + i
    ensures Rising(Tail(history))
  {}

  /** A larger gap does lose events: the room-wide ones that fell out of the log are never sent. */
  lemma LargeGapLoses(history: seq<Entry>, cursor: int, seat: int, k: nat)
    requires Numbered(history) && k < |history| - 600 && cursor <= k && history[k].seat < 0
    ensures history[k] in Missed(history, cursor, seat)
    ensures history[k] !in Missed(Tail(history), cursor, seat)
  {
    SentIffMissed(history, cursor, seat, history[k]);
    SentIffMissed(Tail(history), cursor, seat, history[k]);
  }
}
