/** Timer identifiers as the engine formats them (internal/engine/engine.go, the
    four `fmt.Sprintf` calls of the scheduling helpers). */
module TimerIds {
  import opened Runtime
  import Strings

  function PurposeName(p: TimerPurpose): string {
    match p
    case RetryBackoff => "retry_backoff"
    case CheckpointTimeout => "checkpoint_timeout"
    case ExecDeadline => "node_exec_deadline"
    case AbsDeadline => "node_abs_deadline"
  }

  // "run:node:attempt:purpose", and "run:node:purpose" for the absolute deadline.
  function TimerId(runId: string, node: string, attempt: uint32, purpose: TimerPurpose): string {
    if purpose.AbsDeadline? then Join(Join(runId, node), PurposeName(purpose))
    else Join(Join(Join(runId, node), Strings.Decimal(attempt)), PurposeName(purpose))
  }

  function Join(a: string, b: string): string {
    a + ":" + b
  }

  lemma JoinInjective(a: string, b: string, c: string, d: string)
    requires Join(a, b) == Join(c, d)
    requires ':' !in b && ':' !in d
    ensures a == c && b == d
  {
    var s := Join(a, b);
    assert s[|a|] == ':' && s[|c|] == Join(c, d)[|c|] == ':';
    assert forall i | |a| < i < |s| :: s[i] == b[i - |a| - 1];
    assert forall i | |c| < i < |s| :: s[i] == d[i - |c| - 1];
    assert |a| == |c|;
    assert a == s[..|a|] && c == s[..|c|];
    assert b == s[|a| + 1..] && d == s[|c| + 1..];
  }

  lemma NamesDistinct(p: TimerPurpose, q: TimerPurpose)
    ensures ':' !in PurposeName(p)
    ensures PurposeName(p) == PurposeName(q) ==> p == q
  {
    assert PurposeName(ExecDeadline)[5] == 'e';
    assert PurposeName(AbsDeadline)[5] == 'a';
    assert PurposeName(RetryBackoff)[0] == 'r';
    assert PurposeName(CheckpointTimeout)[0] == 'c';
    assert PurposeName(ExecDeadline)[0] == 'n' == PurposeName(AbsDeadline)[0];
  }

  // Timers of one run share an id only when they agree on node and purpose and,
  // except for the absolute deadline, on the attempt -- even if node ids contain colons.
  lemma TimerIdInjective(runId: string, n: string, a: uint32, p: TimerPurpose, m: string, b: uint32, q: TimerPurpose)
    requires TimerId(runId, n, a, p) == TimerId(runId, m, b, q)
    ensures n == m && p == q && (p.AbsDeadline? || a == b)
  {
    NamesDistinct(p, q);
    NamesDistinct(q, p);
    var x := if p.AbsDeadline? then Join(runId, n) else Join(Join(runId, n), Strings.Decimal(a));
    var y := if q.AbsDeadline? then Join(runId, m) else Join(Join(runId, m), Strings.Decimal(b));
    JoinInjective(x, PurposeName(p), y, PurposeName(q));
    if !p.AbsDeadline? {
      Strings.ParseDecimal(a);
      Strings.ParseDecimal(b);
      JoinInjective(Join(runId, n), Strings.Decimal(a), Join(runId, m), Strings.Decimal(b));
    }
    assert n == Join(runId, n)[|runId| + 1..];
    assert m == Join(runId, m)[|runId| + 1..];
  }

  // The ids as they appear in the log.
  lemma TimerIdShown(run: string, node: string, a: uint32)
    ensures TimerId(run, node, a, RetryBackoff) == run + ":" + node + ":" + Strings.Decimal(a) + ":" + "retry_backoff"
    ensures TimerId(run, node, a, CheckpointTimeout) == run + ":" + node + ":" + Strings.Decimal(a) + ":" + "checkpoint_timeout"
    ensures TimerId(run, node, a, ExecDeadline) == run + ":" + node + ":" + Strings.Decimal(a) + ":" + "node_exec_deadline"
    ensures TimerId(run, node, a, AbsDeadline) == run + ":" + node + ":" + "node_abs_deadline"
  {
  }
}
