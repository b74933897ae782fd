/** The dashboard's live event log, refreshed by a 5000 ms interval (each firing is
    one `Tick`), the `mm:ss` time stamp it shows, and the session target line. */
module Dashboard {
  import opened Decimal
  import MatchContext

  datatype LogEntry = LogEntry(time: string, event: string, kind: string)

  /** The messages a tick picks from. */
  const Messages: seq<string> := ["Cache Refreshed", "Vision Recalculated", "Latency Stable", "Outcome Projected"]

  const InitialLogs: seq<LogEntry> := [
    LogEntry("05:12", "Neural Projection: Alpha Objective Priority High", "success"),
    LogEntry("05:44", "Pathing Anomaly Detected: Beta-Sector", "warning"),
    LogEntry("06:01", "Macro Sync Re-Established: 94%", "neutral")]

  /** How many previous entries a tick keeps: `prev.slice(0, 10)`. */
  const Kept: nat := 10

  function Min(a: nat, b: nat): nat { if a <= b then a else b }

  /** A log tick: the new neutral entry first, then the first ten previous entries
      in their order. `choice` is the random index `Math.floor(Math.random() * 4)`. */
  function Tick(prev: seq<LogEntry>, time: string, choice: nat): (r: seq<LogEntry>)
    requires choice < |Messages|
    ensures |r| == 1 + Min(Kept, |prev|)
    ensures r[0] == LogEntry(time, Messages[choice], "neutral") && r[0].event in Messages
    ensures forall i :: 1 <= i < |r| ==> r[i] == prev[i - 1]
  {
    [LogEntry(time, Messages[choice], "neutral")] + prev[..Min(Kept, |prev|)]
  }

  /** One firing of the interval: the clock reading and the random pick. */
  datatype TickEvent = TickEvent(minutes: nat, seconds: nat, choice: nat)

  predicate ValidEvents(events: seq<TickEvent>) {
    forall i :: 0 <= i < |events| ==> events[i].choice < |Messages|
  }

  /** The log after the interval fired once per event, in order. With no firing it
      is the mounted log; otherwise the newest entry, first, is the last firing's. */
  function Ticks(logs: seq<LogEntry>, events: seq<TickEvent>): (r: seq<LogEntry>)
    requires ValidEvents(events)
    ensures events == [] ==> r == logs
    ensures events != [] ==> 1 <= |r| <= Kept + 1
    ensures events != [] ==> var e := events[|events| - 1];
      r[0] == LogEntry(TimeStr(e.minutes, e.seconds), Messages[e.choice], "neutral")
    decreases |events|
  {
    if events == [] then logs
    else Ticks(Tick(logs, TimeStr(events[0].minutes, events[0].seconds), events[0].choice), events[1..])
  }

  /** Every entry is an initial one or was added by a tick. */
  predicate KnownEntry(e: LogEntry) {
    e in InitialLogs || (e.kind == "neutral" && e.event in Messages)
  }

  /** Starting from a log of at most eleven entries (the initial three among them),
      the log never grows beyond eleven and holds only initial or tick entries. */
  lemma {:induction false} TicksBounded(logs: seq<LogEntry>, events: seq<TickEvent>)
    requires ValidEvents(events)
    requires |logs| <= Kept + 1
    requires forall i :: 0 <= i < |logs| ==> KnownEntry(logs[i])
    ensures |Ticks(logs, events)| <= Kept + 1
    ensures forall i :: 0 <= i < |Ticks(logs, events)| ==> KnownEntry(Ticks(logs, events)[i])
    decreases |events|
  {
    if events != [] {
      var e := events[0];
      var next := Tick(logs, TimeStr(e.minutes, e.seconds), e.choice);
      assert forall i :: 0 <= i < |next| ==> KnownEntry(next[i]) by {
        forall i | 0 <= i < |next| ensures KnownEntry(next[i]) {
          if i > 0 { assert next[i] == logs[i - 1]; }
        }
      }
      assert ValidEvents(events[1..]) by {
        forall i | 0 <= i < |events[1..]| ensures events[1..][i].choice < |Messages| {
          assert events[1..][i] == events[i + 1];
        }
      }
      TicksBounded(next, events[1..]);
    }
  }

  /** The mounted log after any number of ticks has at most eleven entries. */
  lemma MountedLogBounded(events: seq<TickEvent>)
    requires ValidEvents(events)
    ensures |Ticks(InitialLogs, events)| <= 11
  {
    TicksBounded(InitialLogs, events);
  }

  /** `n.toString().padStart(2, '0')`: numerals shorter than two get leading zeros. */
  function PadStart2(s: string): (r: string)
    ensures |s| >= 2 ==> r == s
    ensures |s| < 2 ==> |r| == 2 && r[2 - |s|..] == s && forall i :: 0 <= i < 2 - |s| ==> r[i] == '0'
    decreases 2 - |s|
  {
    if |s| >= 2 then s else PadStart2(['0'] + s)
  }

  /** The time stamp built from the clock's minutes and seconds: at least five
      characters, and for numbers below 100 exactly two digits, ':', two digits. */
  function TimeStr(minutes: nat, seconds: nat): (r: string)
    ensures |r| >= 5
    ensures minutes < 100 && seconds < 100 ==> r == TwoDigits(minutes) + ":" + TwoDigits(seconds)
  {
    TwoDigitPad(minutes);
    TwoDigitPad(seconds);
    PadStart2(NatToString(minutes)) + ":" + PadStart2(NatToString(seconds))
  }

  /** Two decimal digits of a number below 100, tens first. */
  function TwoDigits(n: nat): (r: string)
    requires n < 100
    ensures |r| == 2 && AllDigits(r) && ParseDigits(r) == n
  {
    var r := [DigitChar(n / 10), DigitChar(n % 10)];
    assert r[..1] == [r[0]] && [r[0]][..0] == [];
    assert ParseDigits(r[..1]) == n / 10;
    assert ParseDigits(r) == ParseDigits(r[..1]) * 10 + DigitValue(r[1]);
    r
  }

  /** Padding `String(n)` to two is at least two characters, and for a number below
      100 it is exactly the number's two digits. */
  lemma TwoDigitPad(n: nat)
    ensures |PadStart2(NatToString(n))| >= 2
    ensures n < 100 ==> PadStart2(NatToString(n)) == TwoDigits(n)
  {
    if 10 <= n < 100 {
      assert NatToString(n) == NatToString(n / 10) + [DigitChar(n % 10)];
    }
  }

  /** For minutes and seconds of a clock reading, the stamp is `mm:ss`: two digits,
      a colon and two digits, five characters in all. */
  lemma TimeStrFormat(minutes: nat, seconds: nat)
    requires minutes < 60 && seconds < 60
    ensures TimeStr(minutes, seconds) == TwoDigits(minutes) + ":" + TwoDigits(seconds)
    ensures |TimeStr(minutes, seconds)| == 5 && TimeStr(minutes, seconds)[2] == ':'
  {
    ColonJoin(TwoDigits(minutes), TwoDigits(seconds));
  }

  /** The two halves of a clock stamp read back as its minutes and seconds. */
  lemma TimeStrReadsBack(minutes: nat, seconds: nat)
    requires minutes < 60 && seconds < 60
    ensures ParseDigits(TimeStr(minutes, seconds)[..2]) == minutes
    ensures ParseDigits(TimeStr(minutes, seconds)[3..]) == seconds
  {
    JoinReadsBack(TwoDigits(minutes), TwoDigits(seconds));
  }

  /** The halves of `a + ":" + b` read back as `a` and `b`. */
  lemma JoinReadsBack(a: string, b: string)
    requires |a| == 2 && |b| == 2 && AllDigits(a) && AllDigits(b)
    ensures ParseDigits((a + ":" + b)[..2]) == ParseDigits(a)
    ensures ParseDigits((a + ":" + b)[3..]) == ParseDigits(b)
  {
    ColonJoin(a, b);
  }

  /** Two two-character strings joined by ':' split back at index 2. */
  lemma ColonJoin(a: string, b: string)
    requires |a| == 2 && |b| == 2
    ensures |a + ":" + b| == 5 && (a + ":" + b)[2] == ':'
    ensures (a + ":" + b)[..2] == a && (a + ":" + b)[3..] == b
  {
  }

  /** The session target names the selected team, or a generic placeholder while
      no team is selected; it never shows the sentinel itself. */
  function SessionTarget(state: MatchContext.MatchState): (r: string)
    ensures state.selectedTeam != MatchContext.NoTeam ==> r == state.selectedTeam
    ensures state.selectedTeam == MatchContext.NoTeam ==> r == "GENERIC_MATCH_ALPHA"
    ensures r != MatchContext.NoTeam
  {
    if state.selectedTeam != MatchContext.NoTeam then state.selectedTeam else "GENERIC_MATCH_ALPHA"
  }
}
