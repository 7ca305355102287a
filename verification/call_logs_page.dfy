/** The Call Logs page: per-status counts, the success rate and the status
    badge. The page compares raw status strings; the answered count looks
    for 'completed', a value the declared status union does not contain. */
module CallLogsPage {

  import opened Types
  import opened JsNumber

  /** The status union the CallLog type declares. */
  datatype DeclaredStatus = Answered | Missed | Busy | Ongoing

  function StatusText(s: DeclaredStatus): string
  {
    match s
    case Answered => "answered"
    case Missed => "missed"
    case Busy => "busy"
    case Ongoing => "ongoing"
  }

  predicate IsDeclared(status: string)
  {
    status == "answered" || status == "missed" || status == "busy" || status == "ongoing"
  }

  /** `callLogs.filter(log => log.status === s).length`. */
  function CountStatus(logs: seq<CallLog>, s: string): (n: nat)
    ensures n <= |logs|
    ensures n == 0 <==> forall i :: 0 <= i < |logs| ==> logs[i].status != s
  {
    if logs == [] then 0
    else
      assert forall i :: 1 <= i < |logs| ==> logs[i] == logs[1..][i - 1];
      (if logs[0].status == s then 1 else 0) + CountStatus(logs[1..], s)
  }

  /** `callLogs.length`: empty only without logs, and no per-status count
      exceeds it. */
  function TotalCalls(logs: seq<CallLog>): (n: nat)
    ensures n == 0 <==> logs == []
    ensures forall s :: CountStatus(logs, s) <= n
  {
    |logs|
  }

  /** The Answered card counts the logs whose status is 'completed'. */
  function AnsweredCalls(logs: seq<CallLog>): (n: nat)
    ensures n <= |logs|
    ensures n == 0 <==> forall i :: 0 <= i < |logs| ==> logs[i].status != "completed"
  {
    CountStatus(logs, "completed")
  }

  function MissedCalls(logs: seq<CallLog>): (n: nat)
    ensures n <= |logs|
    ensures n == 0 <==> forall i :: 0 <= i < |logs| ==> logs[i].status != "missed"
  {
    CountStatus(logs, "missed")
  }

  function OngoingCalls(logs: seq<CallLog>): (n: nat)
    ensures n <= |logs|
    ensures n == 0 <==> forall i :: 0 <= i < |logs| ==> logs[i].status != "ongoing"
  {
    CountStatus(logs, "ongoing")
  }

  /** Counts for three distinct strings never add up to more than the logs. */
  lemma {:induction false} DistinctCountsBounded(logs: seq<CallLog>, a: string, b: string, c: string)
    requires a != b && b != c && a != c
    ensures CountStatus(logs, a) + CountStatus(logs, b) + CountStatus(logs, c) <= |logs|
  {
    if logs != [] {
      DistinctCountsBounded(logs[1..], a, b, c);
    }
  }

  /** The three stat cards never exceed the total-calls card. */
  lemma StatCardsBounded(logs: seq<CallLog>)
    ensures AnsweredCalls(logs) + MissedCalls(logs) + OngoingCalls(logs) <= TotalCalls(logs)
  {
    DistinctCountsBounded(logs, "completed", "missed", "ongoing");
  }

  /** `(answeredCalls / totalCalls) * 100` before `Math.round`: NaN when
      there are no calls, otherwise a percentage in [0, 100]. */
  function SuccessRate(logs: seq<CallLog>): (rate: Number)
    ensures rate == NaN <==> logs == []
    ensures logs != [] ==> rate.Finite? && 0.0 <= rate.value <= 100.0
  {
    var q := Divide(AnsweredCalls(logs) as real, TotalCalls(logs) as real);
    if logs != [] then
      FractionAtMostOne(AnsweredCalls(logs) as real, TotalCalls(logs) as real, q.value);
      Scale(q, 100.0)
    else
      Scale(q, 100.0)
  }

  /** With no calls the success-rate caption reads NaN. */
  lemma NoCallsRateIsNaN()
    ensures SuccessRate([]) == NaN
  {
  }

  /** The guarded rate: 0 with no calls, the percentage otherwise. */
  function SuccessRateOrZero(logs: seq<CallLog>): (rate: real)
    ensures 0.0 <= rate <= 100.0
    ensures logs == [] ==> rate == 0.0
    ensures logs != [] ==> SuccessRate(logs) == Finite(rate)
  {
    match SuccessRate(logs)
    case Finite(v) => v
    case _ => 0.0
  }

  lemma FractionAtMostOne(a: real, t: real, q: real)
    requires 0.0 <= a <= t && t > 0.0 && q * t == a
    ensures 0.0 <= q <= 1.0
  {
  }

  datatype CallBadge = AnsweredBadge | MissedBadge | BusyBadge | OngoingBadge | RawBadge(text: string)

  /** `getStatusBadge`: the four known strings get a named badge, anything
      else is shown verbatim. */
  function StatusBadge(status: string): (b: CallBadge)
    ensures b == AnsweredBadge <==> status == "completed"
    ensures b.RawBadge? <==> status !in {"completed", "missed", "busy", "ongoing"}
    ensures b == MissedBadge <==> status == "missed"
    ensures b == BusyBadge <==> status == "busy"
    ensures b == OngoingBadge <==> status == "ongoing"
    ensures b.RawBadge? ==> b.text == status
  {
    match status
    case "completed" => AnsweredBadge
    case "missed" => MissedBadge
    case "busy" => BusyBadge
    case "ongoing" => OngoingBadge
    case _ => RawBadge(status)
  }

  /** A log carrying the declared value 'answered' is not counted as
      answered and shows its raw status instead of the Answered badge. */
  lemma DeclaredAnsweredIsIgnored(logs: seq<CallLog>, log: CallLog)
    requires log.status == StatusText(Answered)
    ensures AnsweredCalls(logs + [log]) == AnsweredCalls(logs)
    ensures StatusBadge(log.status) == RawBadge("answered")
  {
    CountOfAppend(logs, log, "completed");
  }

  lemma {:induction false} CountOfAppend(logs: seq<CallLog>, log: CallLog, s: string)
    ensures CountStatus(logs + [log], s) == CountStatus(logs, s) + (if log.status == s then 1 else 0)
  {
    if logs == [] {
      assert logs + [log] == [log];
      assert [log][1..] == [];
    } else {
      assert (logs + [log])[1..] == logs[1..] + [log];
      CountOfAppend(logs[1..], log, s);
    }
  }

  /** When every status is one the type declares, the Answered card reads 0
      and the success rate is 0% (or NaN with no calls). */
  lemma DeclaredLogsNeverAnswered(logs: seq<CallLog>)
    requires forall i :: 0 <= i < |logs| ==> IsDeclared(logs[i].status)
    ensures AnsweredCalls(logs) == 0
    ensures logs != [] ==> SuccessRate(logs) == Finite(0.0)
  {
    assert forall i :: 0 <= i < |logs| ==> logs[i].status != "completed";
  }
}
