/** The log viewer: a live-tail buffer that keeps the 50 most recent
    entries, the generator that adds one entry per tick for a running
    container, and the query that filters the buffer by container, level and
    a case-insensitive search text. */
module LogViewer {
  import opened Common
  import opened Seqs
  import CG = ContainerGrid

  datatype Level = Error | Warn | Info | Debug

  function LevelName(l: Level): string {
    match l
    case Error => "error"
    case Warn => "warn"
    case Info => "info"
    case Debug => "debug"
  }

  /** `container` holds the id of the container the entry came from. */
  datatype LogEntry = LogEntry(id: string, container: string, timestamp: string, level: Level, message: string)

  /** The most entries the live tail keeps. */
  const Capacity: nat := 50

  /** The log lines the buffer starts with. */
  const SeedLogs: seq<LogEntry> := [
    LogEntry("1", "api-service", "2024-01-15 10:30:15", Info, "Server started on port 3000"),
    LogEntry("2", "web-frontend", "2024-01-15 10:30:16", Info, "Nginx configuration loaded successfully"),
    LogEntry("3", "postgres", "2024-01-15 10:30:17", Info, "Database connection established"),
    LogEntry("4", "api-service", "2024-01-15 10:30:18", Warn, "High memory usage detected: 85%"),
    LogEntry("5", "redis", "2024-01-15 10:30:19", Info, "Redis server ready to accept connections"),
    LogEntry("6", "api-service", "2024-01-15 10:30:20", Error, "Failed to connect to external API: timeout after 5000ms"),
    LogEntry("7", "cube-analytics", "2024-01-15 10:30:21", Info, "Cube.js server is listening on port 4000"),
    LogEntry("8", "web-frontend", "2024-01-15 10:30:22", Info, "Static assets compiled successfully")
  ]

  /** The message templates a generated entry picks from. */
  const Messages: seq<string> := [
    "Request processed successfully",
    "Cache hit for user session",
    "Database query executed in 45ms",
    "Memory usage: 72%",
    "Connection pool status: 8/10 active",
    "Scheduled task completed",
    "Health check passed",
    "Background job started"
  ]

  /** The level pool a generated entry picks from: info three times as likely
      as warn or error. */
  const Levels: seq<Level> := [Info, Info, Info, Warn, Error]

  // ----- The capped buffer -----

  /** The suffix of s from index start, for a start that may be negative (counted from the
      end) or past the end. */
  function SliceFrom<T>(s: seq<T>, start: int): seq<T> {
    if start < 0 then s[Max(0, |s| + start)..] else s[Min(start, |s|)..]
  }

  /** The last min(|s|, n) elements of s. */
  function Latest<T>(s: seq<T>, n: nat): seq<T> {
    s[|s| - Min(|s|, n)..]
  }

  /** One live-tail append: the most recent 49 entries of prev followed by
      the new one, so that the buffer holds at most 50 and the oldest
      entries go first. */
  function Appended(prev: seq<LogEntry>, e: LogEntry): (r: seq<LogEntry>)
    ensures |r| == Min(|prev|, Capacity - 1) + 1 && |r| <= Capacity
    ensures r[|r| - 1] == e
    ensures r[..|r| - 1] == Latest(prev, Capacity - 1)
  {
    SliceFrom(prev, -(Capacity - 1)) + [e]
  }

  /** The buffer after appending each of es in turn. */
  function AppendAll(buf: seq<LogEntry>, es: seq<LogEntry>): seq<LogEntry>
    decreases |es|
  {
    if es == [] then buf else AppendAll(Appended(buf, es[0]), es[1..])
  }

  /** Keeping the latest n of the latest n of a list, then of what follows,
      is keeping the latest n of the whole. */
  lemma LatestOfLatest(s: seq<LogEntry>, t: seq<LogEntry>, n: nat)
    ensures Latest(Latest(s, n) + t, n) == Latest(s + t, n)
  {
    var a := Latest(s, n) + t;
    var b := s + t;
    assert |a| - Min(|a|, n) + (|s| - Min(|s|, n)) == |b| - Min(|b|, n);
    assert a[|a| - Min(|a|, n)..] == b[|b| - Min(|b|, n)..];
  }

  /** One append keeps the latest 50 of the buffer followed by the entry. */
  lemma AppendedIsLatest(buf: seq<LogEntry>, e: LogEntry)
    requires |buf| <= Capacity
    ensures Appended(buf, e) == Latest(buf + [e], Capacity)
  {
    var r := Appended(buf, e);
    var t := buf + [e];
    assert r[..|r| - 1] == t[|t| - |r|..|t| - 1];
    assert r == r[..|r| - 1] + [e];
  }

  /** FIFO eviction: however many entries are appended to a buffer that is
      within capacity, the result is the 50 most recent entries of the whole
      stream, in their original order. */
  lemma {:induction false} AppendAllKeepsLatest(buf: seq<LogEntry>, es: seq<LogEntry>)
    requires |buf| <= Capacity
    ensures AppendAll(buf, es) == Latest(buf + es, Capacity)
    decreases |es|
  {
    if es == [] {
      assert buf + es == buf;
    } else {
      var next := Appended(buf, es[0]);
      AppendedIsLatest(buf, es[0]);
      AppendAllKeepsLatest(next, es[1..]);
      LatestOfLatest(buf + [es[0]], es[1..], Capacity);
      assert buf + [es[0]] + es[1..] == buf + es;
    }
  }

  /** Starting from an empty buffer, after k appends the buffer holds
      min(k, 50) entries; once more than 50 were appended, the first entry
      left is the (k - 50 + 1)-th appended. */
  lemma AppendFromEmpty(es: seq<LogEntry>)
    ensures |AppendAll([], es)| == Min(|es|, Capacity)
    ensures AppendAll([], es) == es[|es| - Min(|es|, Capacity)..]
    ensures |es| > Capacity ==> AppendAll([], es)[0] == es[|es| - Capacity]
  {
    AppendAllKeepsLatest([], es);
    assert [] + es == es;
  }

  // ----- Generating an entry on a tick -----

  /** The ids of the running containers, in list order. */
  function RunningIds(cs: seq<CG.Container>): (ids: seq<string>)
    ensures |ids| == CG.RunningCount(cs)
    ensures forall id :: id in ids <==> exists c :: c in cs && c.status == CG.Running && c.id == id
  {
    var running := Filter(cs, CG.IsRunning);
    var ids := seq(|running|, i requires 0 <= i < |running| => running[i].id);
    assert forall id :: id in ids <==> exists c :: c in cs && c.status == CG.Running && c.id == id by {
      forall id | id in ids ensures exists c :: c in cs && c.status == CG.Running && c.id == id {
        var i :| 0 <= i < |ids| && ids[i] == id;
        assert running[i] in running;
      }
      forall c | c in cs && c.status == CG.Running ensures c.id in ids {
        assert c in running;
        var i :| 0 <= i < |running| && running[i] == c;
        assert ids[i] == c.id;
      }
    }
    ids
  }

  /** The whole part of r times n, for a random r in [0, 1): an index into a list of
      n elements. */
  function PickIndex(r: real, n: nat): (i: nat)
    requires 0.0 <= r < 1.0 && n > 0
    ensures i < n
  {
    assert r * (n as real) < n as real by {
      assert (1.0 - r) * (n as real) > 0.0;
    }
    (r * (n as real)).Floor
  }

  /** A generated entry's level: drawn from the weighted pool, so never
      debug. */
  function PickLevel(r: real): (l: Level)
    requires 0.0 <= r < 1.0
    ensures l in Levels
    ensures l != Debug
  {
    var i := PickIndex(r, |Levels|);
    assert Levels[i] in Levels;
    Levels[i]
  }

  /** A generated entry's message: one of the templates. */
  function PickMessage(r: real): (m: string)
    requires 0.0 <= r < 1.0
    ensures m in Messages
  {
    Messages[PickIndex(r, |Messages|)]
  }

  /** The entry a live-tail tick generates, if any: none when no container
      is running; otherwise one for a running container, at a level that is
      never debug, with a message from the template list. */
  function NextLog(cs: seq<CG.Container>, clock: Clock, rContainer: real, rLevel: real, rMessage: real)
    : (r: Option<LogEntry>)
    requires 0.0 <= rContainer < 1.0 && 0.0 <= rLevel < 1.0 && 0.0 <= rMessage < 1.0
    ensures r.None? <==> forall c :: c in cs ==> c.status != CG.Running
    ensures r.Some? ==> exists c :: c in cs && c.status == CG.Running && c.id == r.value.container
    ensures r.Some? ==> r.value.level != Debug && r.value.message in Messages
    ensures r.Some? ==> r.value.id == clock.now && r.value.timestamp == clock.stamp
  {
    var ids := RunningIds(cs);
    if |ids| > 0 then
      var id := ids[PickIndex(rContainer, |ids|)];
      assert id in ids;
      Some(LogEntry(clock.now, id, clock.stamp, PickLevel(rLevel), PickMessage(rMessage)))
    else
      None
  }

  // ----- The query -----

  function LowerChar(c: char): char {
    if 'A' <= c <= 'Z' then (c as int + 32) as char else c
  }

  /** ASCII lower case. */
  function Lower(s: string): string {
    seq(|s|, i requires 0 <= i < |s| => LowerChar(s[i]))
  }

  /** needle occurs in hay starting at position i. */
  ghost predicate OccursAt(needle: string, hay: string, i: int) {
    0 <= i && i + |needle| <= |hay| && hay[i..i + |needle|] == needle
  }

  /** needle occurs in hay at some position. */
  ghost predicate IsSubstring(needle: string, hay: string) {
    exists i :: OccursAt(needle, hay, i)
  }

  /** Whether needle occurs in hay, scanning from the front. */
  function Includes(hay: string, needle: string): (b: bool)
    ensures b <==> IsSubstring(needle, hay)
    decreases |hay|
  {
    if |needle| <= |hay| && hay[..|needle|] == needle then
      assert OccursAt(needle, hay, 0);
      true
    else if hay == [] then
      false
    else
      var rest := Includes(hay[1..], needle);
      assert IsSubstring(needle, hay) ==> IsSubstring(needle, hay[1..]) by {
        if IsSubstring(needle, hay) {
          var i :| OccursAt(needle, hay, i);
          assert i != 0;
          assert hay[1..][i - 1..i - 1 + |needle|] == hay[i..i + |needle|];
          assert OccursAt(needle, hay[1..], i - 1);
        }
      }
      assert IsSubstring(needle, hay[1..]) ==> IsSubstring(needle, hay) by {
        if IsSubstring(needle, hay[1..]) {
          var i :| OccursAt(needle, hay[1..], i);
          assert hay[1..][i..i + |needle|] == hay[i + 1..i + 1 + |needle|];
          assert OccursAt(needle, hay, i + 1);
        }
      }
      rest
  }

  /** The three conditions of the log query: the selected container is
      "all" or the entry's, the selected level is "all" or the entry's, and
      the search text is empty or occurs, ignoring case, in the message or
      in the container id. */
  predicate Matches(e: LogEntry, container: string, level: string, query: string) {
    && (container == "all" || e.container == container)
    && (level == "all" || LevelName(e.level) == level)
    && (query == "" || Includes(Lower(e.message), Lower(query)) || Includes(Lower(e.container), Lower(query)))
  }

  function MatchesQuery(container: string, level: string, query: string): LogEntry -> bool {
    (e: LogEntry) => Matches(e, container, level, query)
  }

  /** The entries the viewer shows: an order-preserving subsequence of the
      buffer keeping exactly the entries that pass all three conditions. */
  function FilteredLogs(logs: seq<LogEntry>, container: string, level: string, query: string)
    : (r: seq<LogEntry>)
    ensures IsSubsequence(r, logs)
    ensures forall e :: e in r <==>
      && e in logs
      && (container == "all" || e.container == container)
      && (level == "all" || LevelName(e.level) == level)
      && (query == "" || IsSubstring(Lower(query), Lower(e.message)) || IsSubstring(Lower(query), Lower(e.container)))
    ensures forall e :: multiset(r)[e] == if Matches(e, container, level, query) then multiset(logs)[e] else 0
  {
    Filter(logs, MatchesQuery(container, level, query))
  }

  /** With no container, no level and no search text selected, the query
      shows the whole buffer. */
  lemma NoFilterIsIdentity(logs: seq<LogEntry>)
    ensures FilteredLogs(logs, "all", "all", "") == logs
  {
    FilterKeepsAll(logs, MatchesQuery("all", "all", ""));
  }

  /** The search text is compared ignoring case: two texts with the same
      lower case select the same entries. */
  lemma QueryIgnoresCase(logs: seq<LogEntry>, container: string, level: string, q1: string, q2: string)
    requires Lower(q1) == Lower(q2)
    ensures FilteredLogs(logs, container, level, q1) == FilteredLogs(logs, container, level, q2)
  {
    assert |q1| == |Lower(q1)| == |Lower(q2)| == |q2|;
    FilterCongruent(logs, MatchesQuery(container, level, q1), MatchesQuery(container, level, q2));
  }

  /** The buffer behind the viewer. */
  class LogTail {
    var logs: seq<LogEntry>

    ghost predicate Valid()
      reads this
    {
      |logs| <= Capacity
    }

    constructor ()
      ensures Valid() && logs == SeedLogs
    {
      logs := SeedLogs;
    }

    /** One tick of the live-tail timer. It runs only while live tail is on
        and appends an entry only when some container is running. */
    method Tick(containers: seq<CG.Container>, liveTail: bool, clock: Clock,
                rContainer: real, rLevel: real, rMessage: real)
      returns (added: Option<LogEntry>)
      requires Valid()
      requires 0.0 <= rContainer < 1.0 && 0.0 <= rLevel < 1.0 && 0.0 <= rMessage < 1.0
      modifies this
      ensures Valid()
      ensures added == if liveTail then NextLog(containers, clock, rContainer, rLevel, rMessage) else None
      ensures logs == if added.Some? then Appended(old(logs), added.value) else old(logs)
    {
      added := None;
      if liveTail {
        added := NextLog(containers, clock, rContainer, rLevel, rMessage);
        if added.Some? {
          logs := Appended(logs, added.value);
        }
      }
    }
  }
}
