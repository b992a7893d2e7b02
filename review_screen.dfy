// The mobile review screen: today's completed sessions joined into one log timeline, the audio
// files they recorded, the payloads the sync sends, and the totals shown in the header.

module ReviewScreen {
  import opened Common
  import opened Text
  import Sorting

  /** An instant as stored (`ISO` text) together with its time in milliseconds. */
  datatype Stamp = Stamp(iso: string, ms: int)

  datatype LocalLog = LocalLog(timestampSec: int, text: string, confidence: real)

  datatype LocalSession = LocalSession(
    id: string,
    status: string,
    startedAt: Stamp,
    endedAt: Option<Stamp>,
    audioFilePath: Option<string>,
    logs: Option<seq<LocalLog>>,
    memo: string)

  const COMPLETED: string := "completed"

  // ----- today's sessions -----

  predicate CompletedToday(s: LocalSession, today: string)
  {
    s.status == COMPLETED && StartsWith(s.startedAt.iso, today)
  }

  function StartMs(s: LocalSession): int
  {
    s.startedAt.ms
  }

  /** The completed sessions whose start text begins with today's date, earliest first. */
  function TodaySessions(all: seq<LocalSession>, today: string): seq<LocalSession>
  {
    Sorting.SortBy(Filter(all, (s: LocalSession) => CompletedToday(s, today)), StartMs)
  }

  /** Exactly today's completed sessions, in ascending start time. */
  lemma TodaySessionsMeaning(all: seq<LocalSession>, today: string)
    ensures Sorting.SortedBy(TodaySessions(all, today), StartMs)
    ensures forall s :: s in TodaySessions(all, today) <==> s in all && CompletedToday(s, today)
    ensures multiset(TodaySessions(all, today)) == multiset(Filter(all, (s: LocalSession) => CompletedToday(s, today)))
  {
    var kept := Filter(all, (s: LocalSession) => CompletedToday(s, today));
    Sorting.SortByProperties(kept, StartMs);
    Sorting.SortByMembers(kept, StartMs);
  }

  // ----- the combined timeline -----

  function LogsOf(s: LocalSession): seq<LocalLog>
  {
    if s.logs.Some? then s.logs.value else []
  }

  function LogCount(s: LocalSession): nat
  {
    |LogsOf(s)|
  }

  /** How many logs the sessions hold together. */
  function LogTotal(sessions: seq<LocalSession>): nat
  {
    if sessions == [] then 0 else LogTotal(sessions[..|sessions| - 1]) + LogCount(sessions[|sessions| - 1])
  }

  /** The seconds a session adds to the offset: its whole length when it ended, else nothing. */
  function SessionSeconds(s: LocalSession): int
  {
    if s.endedAt.Some? then FloorDiv(s.endedAt.value.ms - s.startedAt.ms, 1000) else 0
  }

  /** The offset of the session after `before`: the lengths of the sessions before it. */
  function Offset(before: seq<LocalSession>): int
  {
    SumInt(before, SessionSeconds)
  }

  /** A log moved `offset` seconds later, its text and confidence kept. */
  function Moved(log: LocalLog, offset: int): (r: LocalLog)
    ensures r.timestampSec == log.timestampSec + offset && r.text == log.text && r.confidence == log.confidence
  {
    log.(timestampSec := log.timestampSec + offset)
  }

  function Shift(logs: seq<LocalLog>, offset: int): (r: seq<LocalLog>)
    ensures |r| == |logs|
    ensures forall j :: 0 <= j < |logs| ==> r[j] == Moved(logs[j], offset)
  {
    seq(|logs|, j requires 0 <= j < |logs| => Moved(logs[j], offset))
  }

  /** Every session's logs in turn, each moved later by the lengths of the sessions before it. */
  function CombinedLogs(sessions: seq<LocalSession>): seq<LocalLog>
  {
    if sessions == [] then []
    else
      var before := sessions[..|sessions| - 1];
      CombinedLogs(before) + Shift(LogsOf(sessions[|sessions| - 1]), Offset(before))
  }

  predicate HasAudio(s: LocalSession)
  {
    s.audioFilePath.Some? && s.audioFilePath.value != ""
  }

  function PathOf(s: LocalSession): string
  {
    if s.audioFilePath.Some? then s.audioFilePath.value else ""
  }

  /** The audio paths of the sessions that have one, in session order. */
  function AudioPaths(sessions: seq<LocalSession>): (paths: seq<string>)
  {
    var with := Filter(sessions, HasAudio);
    seq(|with|, i requires 0 <= i < |with| => PathOf(with[i]))
  }

  /** A path is collected exactly when some session recorded it. */
  lemma AudioPathsMeaning(sessions: seq<LocalSession>)
    ensures forall p :: p in AudioPaths(sessions) ==> exists s :: s in sessions && HasAudio(s) && PathOf(s) == p
    ensures forall s :: s in sessions && HasAudio(s) ==> PathOf(s) in AudioPaths(sessions)
  {
    var with := Filter(sessions, HasAudio);
    var paths := AudioPaths(sessions);
    forall p | p in paths
      ensures exists s :: s in sessions && HasAudio(s) && PathOf(s) == p
    {
      var i :| 0 <= i < |paths| && paths[i] == p;
      assert with[i] in with;
    }
    forall s | s in sessions && HasAudio(s)
      ensures PathOf(s) in paths
    {
      var i :| 0 <= i < |with| && with[i] == s;
      assert paths[i] == PathOf(s);
    }
  }

  /** Appending a session adds its path, if it has one, at the end. */
  lemma AudioPathsStep(sessions: seq<LocalSession>, i: nat)
    requires i < |sessions|
    ensures AudioPaths(sessions[..i + 1]) == AudioPaths(sessions[..i]) + (if HasAudio(sessions[i]) then [PathOf(sessions[i])] else [])
  {
    FilterPrefixStep(sessions, i, HasAudio);
  }

  /** The combine loop of `loadAllSessionLogs` over the sorted sessions. */
  method Combine(sessions: seq<LocalSession>) returns (logs: seq<LocalLog>, paths: seq<string>)
    ensures logs == CombinedLogs(sessions)
    ensures paths == AudioPaths(sessions)
  {
    logs := [];
    paths := [];
    var offset := 0;
    var i := 0;
    while i < |sessions|
      invariant 0 <= i <= |sessions|
      invariant logs == CombinedLogs(sessions[..i])
      invariant paths == AudioPaths(sessions[..i])
      invariant offset == Offset(sessions[..i])
    {
      var session := sessions[i];
      AudioPathsStep(sessions, i);
      if HasAudio(session) {
        paths := paths + [PathOf(session)];
      }
      assert sessions[..i + 1][..i] == sessions[..i];
      logs := logs + Shift(LogsOf(session), offset);
      SumIntPrefixStep(sessions, i, SessionSeconds);
      if session.endedAt.Some? {
        offset := offset + FloorDiv(session.endedAt.value.ms - session.startedAt.ms, 1000);
      }
      i := i + 1;
    }
    assert sessions[..i] == sessions;
  }

  /** `loadAllSessionLogs`: today's sessions, their combined logs and their audio paths. */
  method LoadAllSessionLogs(all: seq<LocalSession>, today: string)
    returns (sessions: seq<LocalSession>, logs: seq<LocalLog>, paths: seq<string>)
    ensures sessions == TodaySessions(all, today)
    ensures logs == CombinedLogs(sessions) && paths == AudioPaths(sessions)
  {
    sessions := TodaySessions(all, today);
    if |sessions| == 0 {
      return sessions, [], [];
    }
    logs, paths := Combine(sessions);
  }

  /** The combined timeline holds as many logs as the sessions together. */
  lemma {:induction false} CombinedCount(sessions: seq<LocalSession>)
    ensures |CombinedLogs(sessions)| == LogTotal(sessions)
  {
    if sessions != [] {
      CombinedCount(sessions[..|sessions| - 1]);
    }
  }

  /**
   * The `j`-th log of session `k` sits after the logs of the sessions before it, moved later by
   * their lengths.
   */
  lemma CombinedLogsAt(sessions: seq<LocalSession>, k: nat, j: nat)
    requires k < |sessions| && j < LogCount(sessions[k])
    ensures LogTotal(sessions[..k]) + j < |CombinedLogs(sessions)|
      && CombinedLogs(sessions)[LogTotal(sessions[..k]) + j]
         == Moved(LogsOf(sessions[k])[j], Offset(sessions[..k]))
  {
    CombinedPrefixLastAt(sessions, k, j);
    CombinedKeepsPrefix(sessions, k + 1, LogTotal(sessions[..k]) + j);
  }

  /** The logs of session `k` close the timeline of the sessions up to it. */
  lemma CombinedPrefixLastAt(sessions: seq<LocalSession>, k: nat, j: nat)
    requires k < |sessions| && j < LogCount(sessions[k])
    ensures LogTotal(sessions[..k]) + j < |CombinedLogs(sessions[..k + 1])|
    ensures CombinedLogs(sessions[..k + 1])[LogTotal(sessions[..k]) + j] == Moved(LogsOf(sessions[k])[j], Offset(sessions[..k]))
  {
    assert sessions[..k] + [sessions[k]] == sessions[..k + 1];
    CombinedLastAt(sessions[..k], sessions[k], j);
  }

  /** The logs of a prefix of the sessions keep their places in the whole timeline. */
  lemma {:induction false} CombinedKeepsPrefix(sessions: seq<LocalSession>, m: nat, at: nat)
    requires m <= |sessions| && at < |CombinedLogs(sessions[..m])|
    ensures at < |CombinedLogs(sessions)| && CombinedLogs(sessions)[at] == CombinedLogs(sessions[..m])[at]
    decreases |sessions|
  {
    if m < |sessions| {
      var before := sessions[..|sessions| - 1];
      assert before[..m] == sessions[..m];
      CombinedKeepsPrefix(before, m, at);
      CombinedPrefixAt(sessions, at);
    } else {
      assert sessions[..m] == sessions;
    }
  }

  /** The logs of the last session follow all the others. */
  lemma CombinedLastAt(before: seq<LocalSession>, s: LocalSession, j: nat)
    requires j < LogCount(s)
    ensures LogTotal(before) + j < |CombinedLogs(before + [s])|
    ensures CombinedLogs(before + [s])[LogTotal(before) + j] == Moved(LogsOf(s)[j], Offset(before))
  {
    var head := CombinedLogs(before);
    var last := Shift(LogsOf(s), Offset(before));
    assert |head| + j < |head + last| && (head + last)[|head| + j] == Moved(LogsOf(s)[j], Offset(before)) by {
      assert (head + last)[|head| + j] == last[j];
    }
    CombinedCount(before);
    CombinedSnoc(before, s);
  }

  /** One more session appends its shifted logs. */
  lemma CombinedSnoc(before: seq<LocalSession>, s: LocalSession)
    ensures CombinedLogs(before + [s]) == CombinedLogs(before) + Shift(LogsOf(s), Offset(before))
  {
    var sessions := before + [s];
    assert sessions[..|sessions| - 1] == before;
  }

  /** Adding a session leaves the earlier logs where they were. */
  lemma CombinedPrefixAt(sessions: seq<LocalSession>, at: nat)
    requires sessions != [] && at < |CombinedLogs(sessions[..|sessions| - 1])|
    ensures at < |CombinedLogs(sessions)| && CombinedLogs(sessions)[at] == CombinedLogs(sessions[..|sessions| - 1])[at]
  {
  }

  // ----- handleSync -----

  /** What `syncSession` is sent for one session: the session fields and its own logs. */
  datatype SyncPayload = SyncPayload(durationSec: int, startedAt: string, endedAt: string, sessionMemo: string,
                                     logs: seq<LocalLog>)

  /** The end of a session, or now while it is open. */
  function EndOrNow(s: LocalSession, now: Stamp): Stamp
  {
    if s.endedAt.Some? then s.endedAt.value else now
  }

  /**
   * The payload of one session: its length in whole seconds up to its end (or now), and the edited
   * memo when its id is the current session's, its stored memo otherwise; the logs go as stored, with
   * their own timestamps (none when the session has no log list).
   */
  function Payload(s: LocalSession, currentId: string, memo: string, now: Stamp): (p: SyncPayload)
    ensures p.startedAt == s.startedAt.iso && p.endedAt == EndOrNow(s, now).iso
    ensures p.durationSec * 1000 <= EndOrNow(s, now).ms - s.startedAt.ms < p.durationSec * 1000 + 1000
    ensures p.sessionMemo == (if s.id == currentId then memo else s.memo)
    ensures s.logs.Some? ==> p.logs == s.logs.value
    ensures s.logs.None? ==> p.logs == []
  {
    SyncPayload(FloorDiv(EndOrNow(s, now).ms - s.startedAt.ms, 1000), s.startedAt.iso, EndOrNow(s, now).iso,
                if s.id == currentId then memo else s.memo, LogsOf(s))
  }

  /**
   * The logs sent for the `k`-th session are not the ones the timeline shows: the timeline holds
   * them moved later by the lengths of the sessions before it.
   */
  lemma {:induction false} SentLogsAreUnshifted(sessions: seq<LocalSession>, k: nat, currentId: string, memo: string, now: Stamp)
    requires k < |sessions|
    ensures CombinedLogs(sessions[..k + 1])
         == CombinedLogs(sessions[..k]) + Shift(Payload(sessions[k], currentId, memo, now).logs, Offset(sessions[..k]))
  {
    assert sessions[..k + 1] == sessions[..k] + [sessions[k]];
    CombinedSnoc(sessions[..k], sessions[k]);
  }

  /** The log counts the server reported saved for the first `n` sessions; a failed call counts nothing. */
  function SavedTotal(saved: nat -> Option<nat>, n: nat): nat
  {
    if n == 0 then 0 else SavedTotal(saved, n - 1) + (if saved(n - 1).Some? then saved(n - 1).value else 0)
  }

  /**
   * `handleSync`: the sessions are sent one after another; `saved(k)` is what the server answered
   * for the `k`-th call, `None` when it failed, which ends the sync. `sent` holds the payloads of the
   * calls made, `synced` the ids marked synced, `total` the saved-log count.
   */
  method HandleSync(sessions: seq<LocalSession>, memo: string, now: Stamp, saved: nat -> Option<nat>)
    returns (sent: seq<SyncPayload>, synced: seq<string>, total: nat, failed: bool)
    ensures |sent| <= |sessions|
    ensures forall k :: 0 <= k < |sent| ==> sent[k] == Payload(sessions[k], sessions[|sessions| - 1].id, memo, now)
    ensures failed <==> exists k :: 0 <= k < |sessions| && saved(k).None?
    ensures failed ==> |sent| >= 1 && saved(|sent| - 1).None? && |synced| == |sent| - 1
    ensures !failed ==> |sent| == |sessions| && |synced| == |sessions|
    ensures forall k :: 0 <= k < |synced| ==> saved(k).Some? && synced[k] == sessions[k].id
    ensures total == SavedTotal(saved, |synced|)
  {
    sent, synced, total, failed := [], [], 0, false;
    if |sessions| == 0 {
      return;
    }
    var currentId := sessions[|sessions| - 1].id;
    var i := 0;
    while i < |sessions|
      invariant 0 <= i <= |sessions|
      invariant |sent| == i && |synced| == i
      invariant forall k :: 0 <= k < i ==> sent[k] == Payload(sessions[k], currentId, memo, now)
      invariant forall k :: 0 <= k < i ==> saved(k).Some?
      invariant forall k :: 0 <= k < i ==> synced[k] == sessions[k].id
      invariant total == SavedTotal(saved, i)
    {
      var payload := Payload(sessions[i], currentId, memo, now);
      sent := sent + [payload];
      var result := saved(i);
      if result.None? {
        failed := true;
        assert exists k :: 0 <= k < |sessions| && saved(k).None? by {
          assert 0 <= i < |sessions| && saved(i).None?;
        }
        return;
      }
      synced := synced + [sessions[i].id];
      total := total + result.value;
      i := i + 1;
    }
    assert forall k :: 0 <= k < |sessions| ==> saved(k).Some?;
  }

  /** With distinct ids, only the current (latest) session carries the edited memo. */
  lemma MemoOnlyForCurrent(sessions: seq<LocalSession>, memo: string, now: Stamp, k: nat)
    requires k < |sessions|
    requires forall i, j :: 0 <= i < j < |sessions| ==> sessions[i].id != sessions[j].id
    ensures Payload(sessions[k], sessions[|sessions| - 1].id, memo, now).sessionMemo
         == (if k == |sessions| - 1 then memo else sessions[k].memo)
  {
  }

  /** A finished session is sent with the length the timeline offsets it by. */
  lemma ClosedPayloadMatchesOffset(s: LocalSession, currentId: string, memo: string, now: Stamp)
    requires s.endedAt.Some?
    ensures Payload(s, currentId, memo, now).durationSec == SessionSeconds(s)
  {
  }

  // ----- the header -----

  function TotalMs(sessions: seq<LocalSession>, now: Stamp): int
  {
    if sessions == [] then 0
    else TotalMs(sessions[..|sessions| - 1], now) + (EndOrNow(sessions[|sessions| - 1], now).ms - sessions[|sessions| - 1].startedAt.ms)
  }

  /** `formatDuration`: "0m" with no sessions, else the whole minutes of all sessions, open ones up to now. */
  function DurationLabel(sessions: seq<LocalSession>, now: Stamp): string
  {
    if sessions == [] then "0m" else IntToString(FloorDiv(TotalMs(sessions, now), 60000)) + "m"
  }

  method FormatDuration(sessions: seq<LocalSession>, now: Stamp) returns (r: string)
    ensures r == DurationLabel(sessions, now)
  {
    if |sessions| == 0 {
      return "0m";
    }
    var totalMs := 0;
    var i := 0;
    while i < |sessions|
      invariant 0 <= i <= |sessions|
      invariant totalMs == TotalMs(sessions[..i], now)
    {
      assert sessions[..i + 1][..i] == sessions[..i];
      var end := if sessions[i].endedAt.Some? then sessions[i].endedAt.value else now;
      totalMs := totalMs + (end.ms - sessions[i].startedAt.ms);
      i := i + 1;
    }
    assert sessions[..i] == sessions;
    r := IntToString(FloorDiv(totalMs, 60000)) + "m";
  }

  /** The longer an open session runs, the larger the total; finished sessions do not move. */
  lemma {:induction false} TotalMsGrowsWithNow(sessions: seq<LocalSession>, a: Stamp, b: Stamp)
    requires a.ms <= b.ms
    ensures TotalMs(sessions, a) <= TotalMs(sessions, b)
    ensures (forall k :: 0 <= k < |sessions| ==> sessions[k].endedAt.Some?) ==> TotalMs(sessions, a) == TotalMs(sessions, b)
  {
    if sessions != [] {
      var before := sessions[..|sessions| - 1];
      TotalMsGrowsWithNow(before, a, b);
    }
  }

  /** Once every session has ended, the header total is the sum of the lengths the timeline uses, give or take rounding. */
  lemma {:induction false} ClosedTotalCoversOffsets(sessions: seq<LocalSession>, now: Stamp)
    requires forall k :: 0 <= k < |sessions| ==> sessions[k].endedAt.Some?
    ensures 1000 * Offset(sessions) <= TotalMs(sessions, now) < 1000 * Offset(sessions) + 1000 * |sessions| + 1
  {
    if sessions != [] {
      var before := sessions[..|sessions| - 1];
      ClosedTotalCoversOffsets(before, now);
    }
  }
}
