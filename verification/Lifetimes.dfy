/** Application callbacks over whole runs: what the trace of callbacks looks like whatever the
    threads do, and which specs a session commits. */
module Lifetimes {
  import opened Base
  import opened Machine
  import opened Threads

  // The monitor: an automaton that reads callback traces and stops at the first bad event.

  datatype Stage = Building | Serving | Ending

  /** The application is off, or an instance spec was applied to it; `running` are the started
      capabilities in start order. */
  datatype Life = Off | On(running: seq<nat>, stage: Stage)

  /** `open` are the handlers in progress, by the binding they belong to. */
  datatype Monitor = Monitor(life: Life, open: multiset<nat>)

  function Without(s: seq<nat>, x: nat): (r: seq<nat>)
    ensures forall y :: y in r <==> y in s && y != x
  {
    if |s| == 0 then [] else
    var rest := Without(s[..|s| - 1], x);
    if s[|s| - 1] == x then rest else rest + [s[|s| - 1]]
  }

  predicate Serves(life: Life, binding: nat) {
    life.On? && life.stage.Serving? && binding in life.running
  }

  /** A capability is started at most once, candidates unwind in reverse start order, nothing is
      stopped with a handler in progress, the spec is cleared after all stops, and handlers run
      between a commit and the first stop after it. */
  function Observe(m: Monitor, e: Callback): Option<Monitor> {
    var life := m.life;
    match e
    case ApplySpec => if life.Off? && m.open == multiset{} then Some(m.(life := On([], Building))) else None
    case Start(b) =>
      if life.On? && life.stage.Building? && b !in life.running then Some(m.(life := On(life.running + [b], Building)))
      else None
    case CommitSpec => if life.On? && life.stage.Building? then Some(m.(life := On(life.running, Serving))) else None
    case ReadyCall(b) => if Serves(life, b) then Some(m) else None
    case Stop(b) =>
      if life.Off? || m.open != multiset{} then None
      else if life.stage.Building? then
        var last := |life.running| - 1;
        if last >= 0 && life.running[last] == b then Some(m.(life := On(life.running[..last], Building))) else None
      else if b in life.running then Some(m.(life := On(Without(life.running, b), Ending))) else None
    case ClearSpec =>
      if life.On? && life.running == [] && m.open == multiset{} then Some(m.(life := Off)) else None
    case Enter(b) => if Serves(life, b) then Some(m.(open := m.open + multiset{b})) else None
    case Leave(b) => if b in m.open then Some(m.(open := m.open - multiset{b})) else None
  }

  function Watch(trace: seq<Callback>): Option<Monitor> {
    if |trace| == 0 then Some(Monitor(Off, multiset{}))
    else
      var before := Watch(trace[..|trace| - 1]);
      if before.None? then None else Observe(before.value, trace[|trace| - 1])
  }

  lemma WatchStep(trace: seq<Callback>, e: Callback)
    requires Watch(trace).Some?
    ensures Watch(trace + [e]) == Observe(Watch(trace).value, e)
  {
    assert (trace + [e])[..|trace|] == trace;
  }

  // What an accepted trace guarantees, in terms of the trace alone.

  function Occurs(trace: seq<Callback>, e: Callback): nat {
    if |trace| == 0 then 0 else Occurs(trace[..|trace| - 1], e) + One(trace[|trace| - 1] == e)
  }

  predicate Running(m: Monitor, b: nat) { m.life.On? && b in m.life.running }

  predicate NoRepeats(s: seq<nat>) {
    forall i, j :: 0 <= i < j < |s| ==> s[i] != s[j]
  }

  predicate Sound(m: Monitor) { m.life.On? ==> NoRepeats(m.life.running) }

  lemma {:induction false} WithoutKeepsOrder(s: seq<nat>, x: nat)
    requires NoRepeats(s)
    ensures NoRepeats(Without(s, x))
  {
    if |s| > 0 {
      var rest := Without(s[..|s| - 1], x);
      WithoutKeepsOrder(s[..|s| - 1], x);
      forall i | 0 <= i < |rest| ensures rest[i] != s[|s| - 1] {
        assert rest[i] in s[..|s| - 1];
      }
    }
  }

  lemma LastOut(s: seq<nat>, b: nat)
    requires |s| > 0 && NoRepeats(s)
    ensures b in s[..|s| - 1] <==> b in s && b != s[|s| - 1]
  {
    assert s == s[..|s| - 1] + [s[|s| - 1]];
  }

  /** One event opens or closes one handler and applies or clears one spec. */
  lemma ObserveOpen(m: Monitor, e: Callback, b: nat)
    requires Observe(m, e).Some?
    ensures var after := Observe(m, e).value;
            && One(after.life.On?) + One(e == ClearSpec) == One(m.life.On?) + One(e == ApplySpec)
            && after.open[b] + One(e == Leave(b)) == m.open[b] + One(e == Enter(b))
    ensures e == Enter(b) ==> Running(m, b)
    ensures e.Stop? || e == ClearSpec ==> m.open == multiset{}
    ensures e == ClearSpec ==> !Running(m, b)
  {
    hide Without;
  }

  /** One event starts or stops one capability. */
  lemma ObserveStep(m: Monitor, e: Callback, b: nat)
    requires Sound(m) && Observe(m, e).Some?
    ensures var after := Observe(m, e).value;
            && Sound(after)
            && One(Running(after, b)) + One(e == Stop(b)) == One(Running(m, b)) + One(e == Start(b))
  {
    hide Without;
    if e.Stop? {
      WithoutKeepsOrder(m.life.running, e.binding);
      if |m.life.running| > 0 {
        LastOut(m.life.running, b);
      }
    }
  }

  /** Every start is matched by at most one stop, every apply by at most one clear, every entry
      by at most one return, and exactly the ones in progress are still unmatched. */
  lemma {:induction false} Balanced(trace: seq<Callback>, b: nat)
    requires Watch(trace).Some?
    ensures var m := Watch(trace).value;
            && Sound(m)
            && Occurs(trace, Start(b)) == Occurs(trace, Stop(b)) + One(Running(m, b))
            && Occurs(trace, ApplySpec) == Occurs(trace, ClearSpec) + One(m.life.On?)
            && Occurs(trace, Enter(b)) == Occurs(trace, Leave(b)) + m.open[b]
  {
    hide Observe, Running;
    if |trace| > 0 {
      var prefix := trace[..|trace| - 1];
      Balanced(prefix, b);
      ObserveStep(Watch(prefix).value, trace[|trace| - 1], b);
      ObserveOpen(Watch(prefix).value, trace[|trace| - 1], b);
    } else {
      NothingRuns(b);
    }
  }

  lemma NothingRuns(b: nat)
    ensures !Running(Monitor(Off, multiset{}), b)
  {
  }

  /** Between positions `i` and `k` capability `b` runs: it was started at `i` and not stopped since. */
  predicate StartedAt(trace: seq<Callback>, i: nat, k: nat, b: nat) {
    && i < k <= |trace| && trace[i] == Start(b)
    && forall j :: i < j < k ==> trace[j] != Stop(b)
  }

  lemma {:induction false} RunningSince(trace: seq<Callback>, b: nat)
    requires Watch(trace).Some? && Running(Watch(trace).value, b)
    ensures exists i: nat :: StartedAt(trace, i, |trace|, b)
  {
    hide Observe, Running;
    NothingRuns(b);
    var last := |trace| - 1;
    var prefix := trace[..last];
    Balanced(prefix, b);
    ObserveStep(Watch(prefix).value, trace[last], b);
    if trace[last] == Start(b) {
      assert StartedAt(trace, last, |trace|, b);
    } else {
      RunningSince(prefix, b);
      var i: nat :| StartedAt(prefix, i, last, b);
      assert StartedAt(trace, i, |trace|, b);
    }
  }

  lemma {:induction false} PrefixAccepted(trace: seq<Callback>, n: nat)
    requires n <= |trace| && Watch(trace).Some?
    ensures Watch(trace[..n]).Some?
  {
    if n == |trace| {
      assert trace[..n] == trace;
    } else {
      var prefix := trace[..|trace| - 1];
      PrefixAccepted(prefix, n);
      assert prefix[..n] == trace[..n];
    }
  }

  lemma {:induction false} PrefixesAccepted(trace: seq<Callback>, k: nat)
    requires Watch(trace).Some? && k < |trace|
    ensures Watch(trace[..k]).Some? && Watch(trace[..k + 1]).Some?
    ensures Watch(trace[..k + 1]) == Observe(Watch(trace[..k]).value, trace[k])
  {
    hide Watch, Observe;
    PrefixAccepted(trace, k);
    PrefixAccepted(trace, k + 1);
    assert trace[..k + 1] == trace[..k] + [trace[k]];
    WatchStep(trace[..k], trace[k]);
  }

  /** A handler is entered after a start of its capability with no stop in between, and a stop
      or a clear finds every handler of every capability returned. */
  lemma HandlersBracketed(trace: seq<Callback>, k: nat, b: nat)
    requires Watch(trace).Some? && k < |trace|
    ensures trace[k] == Enter(b) ==> exists i: nat :: StartedAt(trace, i, k, b)
    ensures trace[k].Stop? || trace[k] == ClearSpec ==> Occurs(trace[..k], Enter(b)) == Occurs(trace[..k], Leave(b))
    ensures trace[k] == ClearSpec ==> Occurs(trace[..k], Start(b)) == Occurs(trace[..k], Stop(b))
  {
    hide Watch, Observe, Running, Occurs;
    PrefixesAccepted(trace, k);
    var before := trace[..k];
    ObserveOpen(Watch(before).value, trace[k], b);
    Balanced(before, b);
    if trace[k] == Enter(b) {
      RunningSince(before, b);
      var i: nat :| StartedAt(before, i, k, b);
      assert StartedAt(trace, i, k, b);
    }
  }

  // Quiescence: no handler is entered between the first stop of a spec and the next commit.

  /** Since position `i` nothing was committed. */
  predicate NoCommit(trace: seq<Callback>, i: nat, k: nat) {
    forall j :: i < j < k && j < |trace| ==> trace[j] != CommitSpec
  }

  lemma {:induction false} NotServing(trace: seq<Callback>, i: nat)
    requires Watch(trace).Some? && i < |trace| && trace[i].Stop? && NoCommit(trace, i, |trace|)
    ensures Unserved(Watch(trace).value.life)
  {
    hide Observe;
    var last := |trace| - 1;
    if i < last {
      assert NoCommit(trace[..last], i, last) && trace[last] != CommitSpec;
      NotServing(trace[..last], i);
    }
    UnservedStep(Watch(trace[..last]).value, trace[last]);
  }

  predicate Unserved(life: Life) { life.On? ==> !life.stage.Serving? }

  lemma UnservedStep(m: Monitor, e: Callback)
    requires Observe(m, e).Some? && e != CommitSpec && (e.Stop? || Unserved(m.life))
    ensures Unserved(Observe(m, e).value.life)
  {
    hide Without;
  }

  /** Every entry after a stop has a commit in between: the wait before the stops drained the handlers. */
  lemma QuietUntilCommit(trace: seq<Callback>, i: nat, k: nat)
    requires Watch(trace).Some? && i < k < |trace| && trace[i].Stop? && trace[k].Enter?
    ensures !NoCommit(trace, i, k)
  {
    PrefixesAccepted(trace, k);
    if NoCommit(trace, i, k) {
      assert NoCommit(trace[..k], i, k) && trace[..k][i] == trace[i];
      NotServing(trace[..k], i);
    }
  }

  // Unwinding: an uncommitted candidate stops in exact reverse start order.

  /** Between positions `i` and `k` neither capability stops and nothing is committed. */
  predicate StillBuilding(trace: seq<Callback>, i: nat, k: nat, a: nat, b: nat) {
    forall m :: i < m < k && m < |trace| ==> trace[m] != Stop(a) && trace[m] != Stop(b) && trace[m] != CommitSpec
  }

  predicate StackedBelow(life: Life, a: nat, b: nat) {
    && life.On? && life.stage.Building?
    && exists p, q :: 0 <= p < q < |life.running| && life.running[p] == a && life.running[q] == b
  }

  lemma {:induction false} LaterOnTop(trace: seq<Callback>, i: nat, j: nat, a: nat, b: nat)
    requires Watch(trace).Some? && i < j < |trace| && trace[i] == Start(a) && trace[j] == Start(b)
    requires StillBuilding(trace, i, |trace|, a, b)
    ensures StackedBelow(Watch(trace).value.life, a, b)
  {
    hide Observe, StackedBelow;
    var last := |trace| - 1;
    var prefix := trace[..last];
    if j < last {
      assert StillBuilding(prefix, i, last, a, b) && trace[last] != Stop(a) && trace[last] != Stop(b)
          && trace[last] != CommitSpec;
      LaterOnTop(prefix, i, j, a, b);
      KeepsStack(Watch(prefix).value, trace[last], a, b);
    } else {
      assert forall m :: i < m < last ==> prefix[m] == trace[m];
      OnStack(prefix, i, a);
      PutOnStack(Watch(prefix).value, a, b);
    }
  }

  lemma PutOnStack(m: Monitor, a: nat, b: nat)
    requires Observe(m, Start(b)).Some? && m.life.On? && a in m.life.running
    ensures StackedBelow(Observe(m, Start(b)).value.life, a, b)
  {
    var p :| 0 <= p < |m.life.running| && m.life.running[p] == a;
    var later := Observe(m, Start(b)).value.life.running;
    assert later[p] == a && later[|later| - 1] == b;
  }

  lemma KeepsStack(m: Monitor, e: Callback, a: nat, b: nat)
    requires Observe(m, e).Some? && StackedBelow(m.life, a, b) && e != Stop(a) && e != Stop(b) && e != CommitSpec
    ensures StackedBelow(Observe(m, e).value.life, a, b)
  {
    hide Without;
    var life, later := m.life, Observe(m, e).value.life;
    var p, q :| 0 <= p < q < |life.running| && life.running[p] == a && life.running[q] == b;
    assert later.running[p] == a && later.running[q] == b;
  }

  lemma {:induction false} OnStack(trace: seq<Callback>, i: nat, a: nat)
    requires Watch(trace).Some? && i < |trace| && trace[i] == Start(a)
    requires forall m :: i < m < |trace| ==> trace[m] != Stop(a) && trace[m] != CommitSpec
    ensures StackedAt(Watch(trace).value.life, a)
  {
    hide Observe, StackedAt;
    var last := |trace| - 1;
    if i < last {
      assert trace[last] != Stop(a) && trace[last] != CommitSpec;
      OnStack(trace[..last], i, a);
    }
    StaysOnStack(Watch(trace[..last]).value, trace[last], a);
  }

  predicate StackedAt(life: Life, a: nat) { life.On? && life.stage.Building? && a in life.running }

  lemma StaysOnStack(m: Monitor, e: Callback, a: nat)
    requires Observe(m, e).Some? && e != Stop(a) && e != CommitSpec && (e == Start(a) || StackedAt(m.life, a))
    ensures StackedAt(Observe(m, e).value.life, a)
  {
    hide Without;
    if StackedAt(m.life, a) {
      var p :| 0 <= p < |m.life.running| && m.life.running[p] == a;
      assert Observe(m, e).value.life.running[p] == a;
    }
  }

  /** Of two capabilities of one candidate, the one started first is stopped last. */
  lemma ReverseOrder(trace: seq<Callback>, i: nat, j: nat, k: nat, a: nat, b: nat)
    requires Watch(trace).Some? && i < j < k < |trace|
    requires trace[i] == Start(a) && trace[j] == Start(b) && trace[k] == Stop(a)
    requires forall m :: i < m < k ==> trace[m] != Stop(a) && trace[m] != CommitSpec
    ensures exists m :: i < m < k && trace[m] == Stop(b)
  {
    hide Without;
    PrefixesAccepted(trace, k);
    var before := trace[..k];
    assert before[i] == Start(a) && before[j] == Start(b);
    if forall m :: i < m < k ==> before[m] != Stop(b) {
      LaterOnTop(before, i, j, a, b);
      OnStackOnce(before, a, b);
    } else {
      var m :| i < m < k && before[m] == Stop(b);
      assert trace[m] == Stop(b);
    }
  }

  /** The earlier of two running candidates cannot be the next to stop. */
  lemma OnStackOnce(trace: seq<Callback>, a: nat, b: nat)
    requires Watch(trace).Some? && StackedBelow(Watch(trace).value.life, a, b)
    ensures Observe(Watch(trace).value, Stop(a)).None?
  {
    Balanced(trace, a);
  }
}
