/** The queue-update fan-out: record hooks trigger, a timer callback publishes,
    and both reassign the shared timer variable under a mutex. Each critical
    section is one step; triggers, callbacks and cancellation interleave. */
module QueueDebounce {

  const DELAY := 500

  /** `timer` is the shared variable; `armed` are the runtime timers that have
      not gone off, by deadline; `woken` callbacks have not cleared the
      variable yet, `publishing` ones have. `unanswered` counts the triggers
      since the last publish attempt. */
  datatype State = State(
    now: int, cancelled: bool, timer: bool,
    armed: seq<int>, woken: nat, publishing: nat,
    fires: seq<int>, triggers: nat, attempts: nat, unanswered: nat)

  datatype Action = Trigger | Pass(ms: nat) | Fire(i: nat) | Clear | Finish | Cancel

  const START := State(0, false, false, [], 0, 0, [], 0, 0, 0)

  predicate Enabled(s: State, a: Action) {
    match a
    case Fire(i) => i < |s.armed| && s.armed[i] <= s.now
    case Clear => s.woken > 0
    case Finish => s.publishing > 0
    case _ => true
  }

  function Step(s: State, a: Action): State
    requires Enabled(s, a)
  {
    match a
    case Trigger =>
      var s' := s.(triggers := s.triggers + 1, unanswered := s.unanswered + 1);
      if s.cancelled || s.timer then s' else s'.(timer := true, armed := s.armed + [s.now + DELAY])
    case Pass(ms) => s.(now := s.now + ms)
    case Fire(i) => s.(armed := s.armed[..i] + s.armed[i + 1..], woken := s.woken + 1, fires := s.fires + [s.now])
    case Clear => s.(timer := false, woken := s.woken - 1, publishing := s.publishing + 1)
    case Finish =>
      var s' := s.(publishing := s.publishing - 1);
      if s.cancelled then s' else s'.(attempts := s.attempts + 1, unanswered := 0)
    case Cancel => s.(cancelled := true)
  }

  ghost predicate RunsFrom(s: State, run: seq<Action>)
    decreases |run|, 0
  {
    run == [] || (RunsFrom(s, run[..|run| - 1]) && Enabled(After(s, run[..|run| - 1]), run[|run| - 1]))
  }

  ghost function After(s: State, run: seq<Action>): State
    requires RunsFrom(s, run)
    decreases |run|, 1
  {
    if run == [] then s else Step(After(s, run[..|run| - 1]), run[|run| - 1])
  }

  // -------------------------------------------------------- what always holds

  ghost predicate Spaced(fires: seq<int>) {
    forall i, j :: 0 <= i < j < |fires| ==> fires[j] - fires[i] >= DELAY
  }

  ghost predicate Inv(s: State) {
    && |s.armed| + s.woken == (if s.timer then 1 else 0)
    && Spaced(s.fires)
    && (forall i :: 0 <= i < |s.fires| ==> s.fires[i] <= s.now)
    && (forall i, k :: 0 <= i < |s.fires| && 0 <= k < |s.armed| ==> s.armed[k] - s.fires[i] >= DELAY)
    && (forall k :: 0 <= k < |s.armed| ==> s.armed[k] <= s.now + DELAY)
    && s.attempts + s.publishing + s.woken + |s.armed| <= s.triggers
    && (s.unanswered > 0 && !s.cancelled ==> s.timer || s.publishing > 0)
  }

  lemma {:induction false} StepKeepsInv(s: State, a: Action)
    requires Inv(s) && Enabled(s, a)
    ensures Inv(Step(s, a))
  {
    if a.Fire? {
      assert a.i == 0 && |s.armed| == 1;
      assert s.armed[..0] + s.armed[1..] == [];
    }
  }

  lemma {:induction false} RunKeepsInv(run: seq<Action>)
    requires RunsFrom(START, run)
    ensures Inv(After(START, run))
    decreases |run|
  {
    if run == [] {
    } else {
      RunKeepsInv(run[..|run| - 1]);
      StepKeepsInv(After(START, run[..|run| - 1]), run[|run| - 1]);
    }
  }

  /** In every interleaving: at most one timer, fires at least 500 ms apart, no
      more publish attempts than triggers. */
  lemma {:induction false} Debounced(run: seq<Action>)
    requires RunsFrom(START, run)
    ensures var s := After(START, run);
            && |s.armed| + s.woken <= 1
            && s.attempts <= s.triggers
            && forall i, j :: 0 <= i < j < |s.fires| ==> s.fires[j] - s.fires[i] >= 500
  {
    RunKeepsInv(run);
  }

  /** When nothing is under way, every trigger was followed by an attempt,
      unless the context was cancelled. */
  lemma {:induction false} NothingForgotten(run: seq<Action>)
    requires RunsFrom(START, run)
    ensures var s := After(START, run);
            !s.cancelled && !s.timer && s.publishing == 0 ==> s.unanswered == 0
  {
    RunKeepsInv(run);
  }

  // ----------------------------------------------------------- it gets there

  predicate Internal(a: Action) {
    a.Fire? || a.Clear? || a.Finish?
  }

  /** Steps left for the callbacks under way. */
  function Work(s: State): nat {
    3 * |s.armed| + 2 * s.woken + s.publishing
  }

  /** Every internal step is progress; while an answer is owed one is possible,
      at the latest 500 ms from now; and when none is left nothing is owed. */
  lemma {:induction false} AnswersCome(s: State, a: Action)
    requires Inv(s) && !s.cancelled
    ensures Enabled(s, a) && Internal(a) ==> Work(Step(s, a)) < Work(s)
    ensures Work(s) == 0 ==> s.unanswered == 0
    ensures Work(s) > 0 ==> exists b :: Internal(b) && Enabled(Step(s, Pass(DELAY)), b)
  {
    if Work(s) > 0 {
      var later := Step(s, Pass(DELAY));
      if s.publishing > 0 {
        assert Enabled(later, Finish) && Internal(Finish);
      } else if s.woken > 0 {
        assert Enabled(later, Clear) && Internal(Clear);
      } else {
        assert Enabled(later, Fire(0)) && Internal(Fire(0));
      }
    }
  }

  ghost predicate AllDue(s: State) {
    forall k :: 0 <= k < |s.armed| ==> s.armed[k] <= s.now
  }

  lemma {:induction false} NextInternal(s: State) returns (a: Action)
    requires Inv(s) && AllDue(s) && Work(s) > 0
    ensures Internal(a) && Enabled(s, a) && Inv(Step(s, a)) && AllDue(Step(s, a))
    ensures Work(Step(s, a)) == Work(s) - 1 && Step(s, a).cancelled == s.cancelled
  {
    a := if s.publishing > 0 then Finish else if s.woken > 0 then Clear else Fire(0);
    StepKeepsInv(s, a);
  }

  predicate AllInternal(steps: seq<Action>) {
    forall i :: 0 <= i < |steps| ==> Internal(steps[i])
  }

  lemma {:induction false} SettlesOnceDue(s: State) returns (steps: seq<Action>)
    requires Inv(s) && !s.cancelled && AllDue(s)
    ensures RunsFrom(s, steps) && |steps| == Work(s) && AllInternal(steps)
    ensures After(s, steps).unanswered == 0 && Work(After(s, steps)) == 0
    decreases Work(s)
  {
    if Work(s) == 0 {
      AnswersCome(s, Trigger);
      steps := [];
    } else {
      var a := NextInternal(s);
      var rest := SettlesOnceDue(Step(s, a));
      steps := SettlesAfter(s, a, rest);
    }
  }

  lemma {:induction false} SettlesAfter(s: State, a: Action, rest: seq<Action>) returns (steps: seq<Action>)
    requires Enabled(s, a) && Internal(a) && RunsFrom(Step(s, a), rest) && AllInternal(rest)
    ensures RunsFrom(s, steps) && After(s, steps) == After(Step(s, a), rest)
    ensures |steps| == |rest| + 1 && AllInternal(steps)
  {
    Prepend(s, a, rest);
    steps := [a] + rest;
  }

  lemma {:induction false} Prepend(s: State, a: Action, rest: seq<Action>)
    requires Enabled(s, a) && RunsFrom(Step(s, a), rest)
    ensures RunsFrom(s, [a] + rest) && After(s, [a] + rest) == After(Step(s, a), rest)
    decreases |rest|
  {
    var run := [a] + rest;
    if rest == [] {
      assert run == [a] && run[..|run| - 1] == [];
      assert RunsFrom(s, []) && After(s, []) == s;
    } else {
      Prepend(s, a, rest[..|rest| - 1]);
      assert run[..|run| - 1] == [a] + rest[..|rest| - 1];
    }
  }

  /** Any state settles: after the delay and as many internal steps as there is
      work, every trigger so far was followed by an attempt. */
  lemma {:induction false} Settles(s: State) returns (steps: seq<Action>)
    requires Inv(s) && !s.cancelled
    ensures |steps| == Work(s) && AllInternal(steps) && RunsFrom(s, [Pass(DELAY)] + steps)
    ensures var s' := After(s, [Pass(DELAY)] + steps);
            s'.now == s.now + 500 && s'.unanswered == 0 && Work(s') == 0
  {
    var later := Step(s, Pass(DELAY));
    StepKeepsInv(s, Pass(DELAY));
    steps := SettlesOnceDue(later);
    Prepend(s, Pass(DELAY), steps);
    InternalStepsTakeNoTime(later, steps);
  }

  lemma {:induction false} InternalStepsTakeNoTime(s: State, steps: seq<Action>)
    requires RunsFrom(s, steps) && AllInternal(steps)
    ensures After(s, steps).now == s.now
    decreases |steps|
  {
    if steps == [] {
    } else {
      assert Internal(steps[|steps| - 1]);
      InternalStepsTakeNoTime(s, steps[..|steps| - 1]);
    }
  }

  // -------------------------------------------------------------- the program

  /** The closure's shared state; `history` is everything that happened to it. */
  class Fanout {
    var s: State
    ghost var history: seq<Action>

    ghost predicate Valid()
      reads this
    {
      RunsFrom(START, history) && After(START, history) == s
    }

    constructor ()
      ensures Valid() && s == START
    {
      s, history := START, [];
    }

    ghost method Log(was: State, a: Action)
      requires RunsFrom(START, history) && After(START, history) == was && Enabled(was, a) && s == Step(was, a)
      modifies `history
      ensures Valid() && history == old(history) + [a]
    {
      history := history + [a];
      assert history[..|history| - 1] == old(history);
    }

    /** Whatever else runs between two critical sections. A callback that has
        cleared the variable is still there afterwards. */
    method Elsewhere()
      requires Valid()
      modifies this
      ensures Valid() && old(history) <= history && s.publishing >= old(s.publishing)
    {
    }

    /** The record hook. */
    method TriggerUpdate()
      requires Valid()
      modifies this
      ensures Valid() && history == old(history) + [Trigger]
      ensures !s.cancelled ==> s.timer
    {
      ghost var was := s;
      s := s.(triggers := s.triggers + 1, unanswered := s.unanswered + 1);
      if !s.cancelled && !s.timer {
        s := s.(timer := true, armed := s.armed + [s.now + DELAY]);
      }
      Log(was, Trigger);
    }

    /** The timer callback: clear under the lock, then publish outside it. */
    method Callback()
      requires Valid() && s.woken > 0
      modifies this
      ensures Valid() && old(history) <= history
      ensures !s.cancelled ==> s.unanswered == 0 && s.attempts > 0
    {
      ghost var was := s;
      s := s.(timer := false, woken := s.woken - 1, publishing := s.publishing + 1);
      Log(was, Clear);
      Elsewhere();
      was := s;
      s := s.(publishing := s.publishing - 1);
      if !s.cancelled {
        s := s.(attempts := s.attempts + 1, unanswered := 0);
      }
      Log(was, Finish);
    }
  }
}
