/** What the append protocol promises over every run: one numbered stream, one
    winner per slot, a batch stored as one slice or as a prefix, and what each
    error does and does not mean. */
module AppendGuarantees {
  import opened EventStore
  import opened AppendProtocol

  ghost predicate Reachable(s: System) {
    exists sid, run :: RunsFrom(Init(sid), run) && After(Init(sid), run) == s
  }

  lemma {:induction false} ReachableKeepsInv(s: System)
    requires Reachable(s)
    ensures Inv(s)
  {
    var sid, run :| RunsFrom(Init(sid), run) && After(Init(sid), run) == s;
    RunKeepsInv(Init(sid), run);
  }

  /** Whatever the interleaving: versions are exactly 1..n and no ID occurs twice. */
  lemma {:induction false} StreamStaysNumbered(s: System)
    requires Reachable(s)
    ensures Numbered(s.log) && DistinctIds(s.log)
  {
    ReachableKeepsInv(s);
    IdsAreDistinct(s);
  }

  lemma {:induction false} StoredPrefixIsSlice(log: seq<Event>, c: Call, n: nat)
    requires Numbering(log, c) && StoredUpTo(log, c.events, n) && 0 < n <= |c.events|
    ensures 0 <= c.expected && c.expected + n <= |log| && log[c.expected..c.expected + n] == c.events[..n]
  {
    assert InLog(log, c.events[0]) && InLog(log, c.events[n - 1]);
  }

  lemma {:induction false} SameIdSameSlot(s: System, w: nat, k: nat, i: nat)
    requires Inv(s) && w in s.calls && k < |s.calls[w].events| && i < |s.log|
    requires s.log[i].id == s.calls[w].events[k].id
    ensures i + 1 == s.calls[w].events[k].version && InLog(s.log, s.calls[w].events[k])
  {
    assert s.log[i] in s.minted && s.calls[w].events[k] in s.minted;
  }

  /** A call that returned success has its whole batch in the slots right after
      its expected version, in order, and nowhere else. */
  lemma {:induction false} SuccessIsOneSlice(s: System, w: nat)
    requires Reachable(s) && w in s.calls && s.calls[w].pc == Returned(Success) && s.calls[w].events != []
    ensures var c := s.calls[w];
            && 0 <= c.expected <= c.expected + |c.events| <= |s.log|
            && s.log[c.expected..c.expected + |c.events|] == c.events
            && forall i :: 0 <= i < |s.log| && s.log[i].id in Ids(c.events) ==>
                 c.expected <= i < c.expected + |c.events|
  {
    ReachableKeepsInv(s);
    var c := s.calls[w];
    assert Numbering(s.log, c) && StoredUpTo(s.log, c.events, |c.events|) by { assert CallOk(s.log, c); }
    StoredPrefixIsSlice(s.log, c, |c.events|);
    assert c.events[..|c.events|] == c.events;
    forall i | 0 <= i < |s.log| && s.log[i].id in Ids(c.events)
      ensures c.expected <= i < c.expected + |c.events|
    {
      var k :| 0 <= k < |c.events| && c.events[k].id == s.log[i].id;
      SameIdSameSlot(s, w, k, i);
    }
  }

  lemma {:induction false} WinnerHoldsTheSlot(log: seq<Event>, c: Call)
    requires CallOk(log, c) && c.pc == Returned(Success) && c.events != []
    ensures InLog(log, c.events[0]) && c.events[0].version == c.expected + 1
  {
    assert StoredUpTo(log, c.events, |c.events|);
    assert InLog(log, c.events[0]);
  }

  lemma {:induction false} FirstEventsDiffer(s: System, v: nat, w: nat)
    requires Owned(s) && v in s.calls && w in s.calls && s.calls[v].events != [] && s.calls[w].events != []
    requires s.calls[v].events[0] == s.calls[w].events[0]
    ensures v == w
  {
  }

  /** Of all the calls that expect the same version, at most one succeeds. */
  lemma {:induction false} OneWinnerPerVersion(s: System, v: nat, w: nat)
    requires Reachable(s) && v in s.calls && w in s.calls
    requires s.calls[v].pc == s.calls[w].pc == Returned(Success)
    requires s.calls[v].events != [] && s.calls[w].events != []
    requires s.calls[v].expected == s.calls[w].expected
    ensures v == w
  {
    ReachableIsOwned(s, v);
    ReachableIsOwned(s, w);
    WinnerHoldsTheSlot(s.log, s.calls[v]);
    WinnerHoldsTheSlot(s.log, s.calls[w]);
    FirstEventsDiffer(s, v, w);
  }

  lemma {:induction false} ReachableIsOwned(s: System, w: nat)
    requires Reachable(s) && w in s.calls
    ensures Owned(s) && CallOk(s.log, s.calls[w])
  {
    ReachableKeepsInv(s);
  }

  // ------------------------------------------------ what is stored of a batch

  function Landed(log: seq<Event>, events: seq<Event>): (n: nat)
    ensures n <= |events|
  {
    if events != [] && InLog(log, events[0]) then 1 + Landed(log, events[1..]) else 0
  }

  lemma {:induction false} LandedIsPrefix(log: seq<Event>, events: seq<Event>)
    ensures StoredUpTo(log, events, Landed(log, events))
    ensures Landed(log, events) < |events| ==> !InLog(log, events[Landed(log, events)])
  {
    if events == [] || !InLog(log, events[0]) {
    } else {
      LandedIsPrefix(log, events[1..]);
      forall k | 0 < k < Landed(log, events) ensures InLog(log, events[k]) {
        assert InLog(log, events[1..][k - 1]);
      }
    }
  }

  lemma {:induction false} NothingAfterTheGap(log: seq<Event>, c: Call, k: nat)
    requires PrefixClosed(log, c) && Landed(log, c.events) <= k < |c.events|
    ensures !InLog(log, c.events[k])
  {
    LandedIsPrefix(log, c.events);
    if k == Landed(log, c.events) {
    } else {
      NothingAfterTheGap(log, c, k - 1);
    }
  }

  /** In every reachable state, and so whatever a call returned: what is stored
      of its batch is exactly a prefix, in the slots right after the expected
      version; the rest of the batch is nowhere in the stream. */
  lemma {:induction false} AlwaysExactlyAPrefix(s: System, w: nat)
    requires Reachable(s) && w in s.calls
    ensures var c := s.calls[w]; var n := Landed(s.log, c.events);
            && (n > 0 ==>
                  0 <= c.expected && c.expected + n <= |s.log| && s.log[c.expected..c.expected + n] == c.events[..n])
            && forall i, k :: 0 <= i < |s.log| && n <= k < |c.events| ==> s.log[i].id != c.events[k].id
  {
    ReachableKeepsInv(s);
    var c := s.calls[w];
    var n := Landed(s.log, c.events);
    assert PrefixClosed(s.log, c) && Numbering(s.log, c) by { assert CallOk(s.log, c); }
    LandedIsPrefix(s.log, c.events);
    if n > 0 {
      StoredPrefixIsSlice(s.log, c, n);
    }
    forall i, k | 0 <= i < |s.log| && n <= k < |c.events| ensures s.log[i].id != c.events[k].id {
      NothingAfterTheGap(s.log, c, k);
      if s.log[i].id == c.events[k].id {
        SameIdSameSlot(s, w, k, i);
      }
    }
  }

  // ------------------------------------------------------- bounded attempts

  /** The Append steps since the batch was last handed in. */
  function Appends(run: seq<Action>, w: nat): nat {
    if run == [] || run[|run| - 1] == Resubmit(w) then 0
    else Appends(run[..|run| - 1], w) + if run[|run| - 1].BeginAppend? && run[|run| - 1].w == w then 1 else 0
  }

  function Attempts(s: System, w: nat): nat {
    if w in s.calls then s.calls[w].attempts else 0
  }

  lemma {:induction false} StepAttempts(s: System, a: Action, w: nat)
    requires Enabled(s, a)
    ensures Attempts(Apply(s, a), w) ==
              if a == Resubmit(w) then 0 else Attempts(s, w) + if a.BeginAppend? && a.w == w then 1 else 0
  {
  }

  lemma {:induction false} AttemptsCountAppends(sid: string, run: seq<Action>, w: nat)
    requires RunsFrom(Init(sid), run)
    ensures Attempts(After(Init(sid), run), w) == Appends(run, w)
    decreases |run|
  {
    if run == [] {
    } else {
      AttemptsCountAppends(sid, run[..|run| - 1], w);
      StepAttempts(After(Init(sid), run[..|run| - 1]), run[|run| - 1], w);
    }
  }

  /** No call, resubmitted or not, ever asks the store to append more than five times. */
  lemma {:induction false} AtMostFiveAppends(sid: string, run: seq<Action>, w: nat)
    requires RunsFrom(Init(sid), run)
    ensures Appends(run, w) <= 5
  {
    AttemptsCountAppends(sid, run, w);
    RunKeepsInv(Init(sid), run);
    if w in After(Init(sid), run).calls {
      assert CallOk(After(Init(sid), run).log, After(Init(sid), run).calls[w]);
    }
  }
}
