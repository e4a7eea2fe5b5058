/** The command log: idempotent appends, and a listing that is chronological
    although it only compares texts. */
module CommandLog {
  import Sorting
  import opened Options
  import opened Text
  import opened Timestamps

  datatype Command = Command(requestID: string, commandType: string, artistID: string, queuedAt: Time)

  datatype Row = Row(commandType: string, artistID: string, queuedAt: string)

  type Rows = map<string, Row>

  /** Blank strings and None leave a filter out. */
  datatype Filter =
    Filter(artistID: string, commandType: string, since: Option<Time>, until: Option<Time>, unresolvedOnly: bool,
      limit: int)

  const DEFAULT_LIMIT := 100

  predicate KnownType(commandType: string) {
    commandType == "refresh" || commandType == "batch" || commandType == "backfilled"
  }

  predicate Acceptable(cmd: Command) {
    !Blank(cmd.requestID) && !Blank(cmd.artistID) && KnownType(cmd.commandType)
  }

  /** A command is accepted when something is left of both IDs after trimming
      and its type is one of three. */
  lemma {:induction false} AcceptableIsExact(cmd: Command)
    ensures Acceptable(cmd) <==>
              && TrimSpace(cmd.requestID) != "" && TrimSpace(cmd.artistID) != ""
              && cmd.commandType in {"refresh", "batch", "backfilled"}
  {
    BlankIsTrimmedAway(cmd.requestID);
    BlankIsTrimmedAway(cmd.artistID);
  }

  lemma {:induction false} BlankIsTrimmedAway(s: string)
    ensures Blank(s) <==> TrimSpace(s) == ""
  {
    if s == "" {
    } else if IsSpace(s[0]) {
      BlankIsTrimmedAway(s[1..]);
      assert Blank(s[1..]) ==> forall i :: 0 < i < |s| ==> s[i] == s[1..][i - 1];
    } else if IsSpace(s[|s| - 1]) {
      BlankIsTrimmedAway(s[..|s| - 1]);
    }
  }

  /** Insert or ignore. */
  function Logged(rows: Rows, cmd: Command): Rows
    requires Valid(cmd.queuedAt)
  {
    if !Acceptable(cmd) || cmd.requestID in rows then rows
    else rows[cmd.requestID := Row(cmd.commandType, cmd.artistID, Format(cmd.queuedAt))]
  }

  function LoggedAll(rows: Rows, cmds: seq<Command>): Rows
    requires forall i :: 0 <= i < |cmds| ==> Valid(cmds[i].queuedAt)
  {
    if cmds == [] then rows else Logged(LoggedAll(rows, cmds[..|cmds| - 1]), cmds[|cmds| - 1])
  }

  lemma {:induction false} LoggedStays(rows: Rows, cmds: seq<Command>)
    requires forall i :: 0 <= i < |cmds| ==> Valid(cmds[i].queuedAt)
    ensures forall id :: id in rows ==> id in LoggedAll(rows, cmds) && LoggedAll(rows, cmds)[id] == rows[id]
    ensures forall i :: 0 <= i < |cmds| && Acceptable(cmds[i]) ==> cmds[i].requestID in LoggedAll(rows, cmds)
  {
    if cmds == [] {
    } else {
      LoggedStays(rows, cmds[..|cmds| - 1]);
    }
  }

  /** What a batch adds: the request IDs of its acceptable commands, each with
      the columns of the first command that carries it. Old rows stay. */
  lemma {:induction false} BatchIsExact(rows: Rows, cmds: seq<Command>, id: string)
    requires forall i :: 0 <= i < |cmds| ==> Valid(cmds[i].queuedAt)
    ensures id in rows ==> id in LoggedAll(rows, cmds) && LoggedAll(rows, cmds)[id] == rows[id]
    ensures id in LoggedAll(rows, cmds) && id !in rows <==>
              id !in rows && exists i :: 0 <= i < |cmds| && IsFirst(cmds, i, id)
    ensures id !in rows ==> forall i :: 0 <= i < |cmds| && IsFirst(cmds, i, id) ==>
              Shows(LoggedAll(rows, cmds), cmds[i])
  {
    if cmds == [] {
    } else {
      var init, last := cmds[..|cmds| - 1], |cmds| - 1;
      BatchIsExact(rows, init, id);
      forall i | 0 <= i < last ensures IsFirst(cmds, i, id) <==> IsFirst(init, i, id) {
        FirstOfPrefix(cmds, i, id);
      }
      if id !in rows {
        FirstOrBefore(cmds, id);
        OneMoreLogged(LoggedAll(rows, init), cmds[last], id);
      }
    }
  }

  lemma {:induction false} OneMoreLogged(rows: Rows, cmd: Command, id: string)
    requires Valid(cmd.queuedAt)
    ensures id in Logged(rows, cmd) <==> id in rows || (Acceptable(cmd) && cmd.requestID == id)
    ensures id in rows ==> Logged(rows, cmd)[id] == rows[id]
    ensures id !in rows && Acceptable(cmd) && cmd.requestID == id ==> Shows(Logged(rows, cmd), cmd)
  {
  }

  lemma {:induction false} FirstOfPrefix(cmds: seq<Command>, i: nat, id: string)
    requires i < |cmds| - 1
    ensures IsFirst(cmds, i, id) <==> IsFirst(cmds[..|cmds| - 1], i, id)
  {
  }

  /** The last command is the first with its ID unless an earlier one is. */
  lemma {:induction false} FirstOrBefore(cmds: seq<Command>, id: string)
    requires cmds != []
    ensures var last := |cmds| - 1;
            IsFirst(cmds, last, id) <==>
              && cmds[last].requestID == id && Acceptable(cmds[last])
              && !exists i :: 0 <= i < last && IsFirst(cmds[..last], i, id)
  {
    var last := |cmds| - 1;
    if j :| 0 <= j < last && cmds[j].requestID == id && Acceptable(cmds[j]) {
      var i := SomeFirstUpto(cmds[..last], j, id);
    }
  }

  lemma {:induction false} SomeFirstUpto(cmds: seq<Command>, j: nat, id: string) returns (i: nat)
    requires j < |cmds| && cmds[j].requestID == id && Acceptable(cmds[j])
    ensures i <= j && IsFirst(cmds, i, id)
  {
    if k :| 0 <= k < j && cmds[k].requestID == id && Acceptable(cmds[k]) {
      i := SomeFirstUpto(cmds, k, id);
    } else {
      i := j;
    }
  }

  /** The first acceptable command of the batch with this request ID. */
  predicate IsFirst(cmds: seq<Command>, i: nat, id: string)
    requires i < |cmds|
  {
    && cmds[i].requestID == id && Acceptable(cmds[i])
    && forall j :: 0 <= j < i && cmds[j].requestID == id ==> !Acceptable(cmds[j])
  }

  /** The command's own columns, its time as text. */
  predicate Shows(rows: Rows, cmd: Command)
    requires Valid(cmd.queuedAt)
  {
    && cmd.requestID in rows
    && rows[cmd.requestID].commandType == cmd.commandType
    && rows[cmd.requestID].artistID == cmd.artistID
    && rows[cmd.requestID].queuedAt == Format(cmd.queuedAt)
  }

  lemma {:induction false} AlreadyLogged(rows: Rows, cmds: seq<Command>)
    requires forall i :: 0 <= i < |cmds| ==>
               Valid(cmds[i].queuedAt) && (Acceptable(cmds[i]) ==> cmds[i].requestID in rows)
    ensures LoggedAll(rows, cmds) == rows
  {
    if cmds == [] {
    } else {
      AlreadyLogged(rows, cmds[..|cmds| - 1]);
    }
  }

  /** Logging a batch again, even with other times, changes nothing. */
  lemma {:induction false} LoggingIsIdempotent(rows: Rows, cmds: seq<Command>, again: seq<Command>)
    requires |again| == |cmds| && forall i :: 0 <= i < |cmds| ==>
               Valid(cmds[i].queuedAt) && Valid(again[i].queuedAt) && again[i].(queuedAt := cmds[i].queuedAt) == cmds[i]
    ensures LoggedAll(LoggedAll(rows, cmds), again) == LoggedAll(rows, cmds)
  {
    LoggedStays(rows, cmds);
    AlreadyLogged(LoggedAll(rows, cmds), again);
  }

  // ---------------------------------------------------------------- listing

  predicate Selected(rows: Rows, failed: set<string>, dispatched: set<string>, f: Filter, id: string)
    requires f.since.Some? ==> Valid(f.since.value)
    requires f.until.Some? ==> Valid(f.until.value)
  {
    && id in rows
    && (TrimSpace(f.artistID) == "" || rows[id].artistID == TrimSpace(f.artistID))
    && (TrimSpace(f.commandType) == "" || rows[id].commandType == TrimSpace(f.commandType))
    && (f.since.Some? ==> !StringLess(rows[id].queuedAt, Format(f.since.value)))
    && (f.until.Some? ==> !StringLess(Format(f.until.value), rows[id].queuedAt))
    && (f.unresolvedOnly ==> id !in dispatched || id in failed)
  }

  /** The text bounds select exactly the times in range, to the millisecond. */
  lemma {:induction false} BoundsAreTimes(rows: Rows, failed: set<string>, dispatched: set<string>, f: Filter,
      id: string, t: Time)
    requires (f.since.Some? ==> Valid(f.since.value)) && (f.until.Some? ==> Valid(f.until.value))
    requires id in rows && Valid(t) && rows[id].queuedAt == Format(t)
    ensures Selected(rows, failed, dispatched, f, id) <==>
              && Selected(rows, failed, dispatched, f.(since := None, until := None), id)
              && (f.since.Some? ==> Millis(f.since.value) <= Millis(t))
              && (f.until.Some? ==> Millis(t) <= Millis(f.until.value))
  {
    if f.since.Some? {
      TextOrderIsTimeOrder(t, f.since.value);
    }
    if f.until.Some? {
      TextOrderIsTimeOrder(f.until.value, t);
    }
  }

  /** A newly logged command is selected by exactly the filters that leave out or
      name its artist, leave out or name its type, and whose times lie around its
      own; among the unresolved ones until it was dispatched without failing. */
  lemma {:induction false} FoundExactly(rows: Rows, cmd: Command, failed: set<string>, dispatched: set<string>,
      f: Filter)
    requires Valid(cmd.queuedAt) && Acceptable(cmd) && cmd.requestID !in rows
    requires (f.since.Some? ==> Valid(f.since.value)) && (f.until.Some? ==> Valid(f.until.value))
    ensures Selected(Logged(rows, cmd), failed, dispatched, f, cmd.requestID) <==>
              && (TrimSpace(f.artistID) == "" || TrimSpace(f.artistID) == cmd.artistID)
              && (TrimSpace(f.commandType) == "" || TrimSpace(f.commandType) == cmd.commandType)
              && (f.since.Some? ==> Millis(f.since.value) <= Millis(cmd.queuedAt))
              && (f.until.Some? ==> Millis(cmd.queuedAt) <= Millis(f.until.value))
              && (f.unresolvedOnly ==> cmd.requestID !in dispatched || cmd.requestID in failed)
  {
    BoundsAreTimes(Logged(rows, cmd), failed, dispatched, f, cmd.requestID, cmd.queuedAt);
  }

  /** The filter on its own artist, type and time finds it exactly when its
      artist ID is trimmed: filters are trimmed, logged columns are not. */
  lemma {:induction false} OwnFilterFinds(rows: Rows, cmd: Command, limit: int)
    requires Valid(cmd.queuedAt) && Acceptable(cmd) && cmd.requestID !in rows
    ensures var own := Filter(cmd.artistID, cmd.commandType, Some(cmd.queuedAt), Some(cmd.queuedAt), false, limit);
            Selected(Logged(rows, cmd), {}, {}, own, cmd.requestID) <==> TrimSpace(cmd.artistID) == cmd.artistID
  {
    var own := Filter(cmd.artistID, cmd.commandType, Some(cmd.queuedAt), Some(cmd.queuedAt), false, limit);
    FoundExactly(rows, cmd, {}, {}, own);
    assert TrimSpace(cmd.commandType) == cmd.commandType;
    BlankIsTrimmedAway(cmd.artistID);
  }

  /** Newest text first, then the lower request ID. */
  predicate Before(rows: Rows, a: string, b: string) {
    && a in rows && b in rows
    && (StringLess(rows[b].queuedAt, rows[a].queuedAt) || (rows[a].queuedAt == rows[b].queuedAt && StringLess(a, b)))
  }

  lemma {:induction false} BeforeIsTotal(rows: Rows, a: string, b: string)
    requires a in rows && b in rows
    ensures Before(rows, a, b) || Before(rows, b, a) || a == b
    ensures !(Before(rows, a, b) && Before(rows, b, a))
  {
    StringLessIsTotal(rows[a].queuedAt, rows[b].queuedAt);
    StringLessIsTotal(a, b);
  }

  lemma {:induction false} BeforeChains(rows: Rows, a: string, b: string, c: string)
    requires a in rows && b in rows && c in rows && Before(rows, a, b) && Before(rows, b, c)
    ensures Before(rows, a, c)
  {
    if StringLess(rows[b].queuedAt, rows[a].queuedAt) && StringLess(rows[c].queuedAt, rows[b].queuedAt) {
      StringLessChains(rows[c].queuedAt, rows[b].queuedAt, rows[a].queuedAt);
    } else if rows[a].queuedAt == rows[b].queuedAt == rows[c].queuedAt {
      StringLessChains(a, b, c);
    }
  }

  lemma {:induction false} SomeFirst(rows: Rows, ids: set<string>) returns (id: string)
    requires ids <= rows.Keys && ids != {}
    ensures id in ids && forall x :: x in ids && x != id ==> Before(rows, id, x)
  {
    var before := (a, b) => Before(rows, a, b);
    forall a, b | a in ids && b in ids && a != b ensures before(a, b) || before(b, a) {
      BeforeIsTotal(rows, a, b);
    }
    forall a, b, c | a in ids && b in ids && c in ids && before(a, b) && before(b, c) ensures before(a, c) {
      BeforeChains(rows, a, b, c);
    }
    id := Sorting.FirstOf(ids, before);
  }

  class Log {
    var rows: Rows

    /** Every row carries a formatted time. */
    ghost predicate Formatted()
      reads this
    {
      forall id :: id in rows ==> exists t :: Valid(t) && rows[id].queuedAt == Format(t)
    }

    constructor ()
      ensures Formatted() && rows == map[]
    {
      rows := map[];
    }

    method Append(cmd: Command) returns (ok: bool)
      requires Formatted() && Valid(cmd.queuedAt)
      modifies this
      ensures Formatted() && rows == Logged(old(rows), cmd) && ok == Acceptable(cmd)
      ensures ok && cmd.requestID !in old(rows) ==> Shows(rows, cmd)
    {
      ok := Acceptable(cmd);
      if ok && cmd.requestID !in rows {
        rows := rows[cmd.requestID := Row(cmd.commandType, cmd.artistID, Format(cmd.queuedAt))];
      }
    }

    /** All valid commands of a batch, in one transaction. */
    method LogBatch(cmds: seq<Command>)
      requires Formatted() && forall i :: 0 <= i < |cmds| ==> Valid(cmds[i].queuedAt)
      modifies this
      ensures Formatted() && rows == LoggedAll(old(rows), cmds)
      ensures forall id :: id in rows <==> id in old(rows) || exists i :: 0 <= i < |cmds| && IsFirst(cmds, i, id)
      ensures forall i :: 0 <= i < |cmds| && IsFirst(cmds, i, cmds[i].requestID) && cmds[i].requestID !in old(rows) ==>
                Shows(rows, cmds[i])
    {
      for i := 0 to |cmds|
        invariant Formatted() && rows == LoggedAll(old(rows), cmds[..i])
      {
        assert cmds[..i + 1][..i] == cmds[..i];
        var _ := Append(cmds[i]);
      }
      assert cmds[..|cmds|] == cmds;
      forall id ensures id in rows <==> id in old(rows) || exists i :: 0 <= i < |cmds| && IsFirst(cmds, i, id) {
        BatchIsExact(old(rows), cmds, id);
      }
      forall i | 0 <= i < |cmds| && IsFirst(cmds, i, cmds[i].requestID) && cmds[i].requestID !in old(rows)
        ensures Shows(rows, cmds[i])
      {
        BatchIsExact(old(rows), cmds, cmds[i].requestID);
      }
    }

    /** The rows come newest first; those beyond the limit come after them. */
    method List(f: Filter, failed: set<string>, dispatched: set<string>) returns (out: seq<string>)
      requires (f.since.Some? ==> Valid(f.since.value)) && (f.until.Some? ==> Valid(f.until.value))
      ensures forall i :: 0 <= i < |out| ==> Selected(rows, failed, dispatched, f, out[i])
      ensures forall i, j :: 0 <= i < j < |out| ==> Before(rows, out[i], out[j])
      ensures var limit := if f.limit <= 0 then 100 else f.limit;
              |out| <= limit && forall id :: Selected(rows, failed, dispatched, f, id) && id !in out ==>
                |out| == limit && forall i :: 0 <= i < |out| ==> Before(rows, out[i], id)
    {
      var limit := if f.limit <= 0 then DEFAULT_LIMIT else f.limit;
      var left := set id | id in rows && Selected(rows, failed, dispatched, f, id);
      out := [];
      while |out| < limit && left != {}
        invariant |out| <= limit && left <= rows.Keys
        invariant forall i :: 0 <= i < |out| ==> Selected(rows, failed, dispatched, f, out[i])
        invariant forall id :: id in left || id in out <==> Selected(rows, failed, dispatched, f, id)
        invariant forall i, j :: 0 <= i < j < |out| ==> Before(rows, out[i], out[j])
        invariant forall i, id :: 0 <= i < |out| && id in left ==> Before(rows, out[i], id)
        decreases |left|
      {
        ghost var first := SomeFirst(rows, left);
        var id :| id in left && forall x :: x in left && x != id ==> Before(rows, id, x);
        out, left := out + [id], left - {id};
      }
    }

    /** The listing is chronological. */
    lemma ListedNewestFirst(out: seq<string>, i: nat, j: nat, x: Time, y: Time)
      requires i < j < |out| && Before(rows, out[i], out[j])
      requires Valid(x) && Valid(y) && rows[out[i]].queuedAt == Format(x) && rows[out[j]].queuedAt == Format(y)
      ensures Millis(x) >= Millis(y)
      ensures Millis(x) == Millis(y) ==> StringLess(out[i], out[j])
    {
      TextOrderIsTimeOrder(x, y);
      TextOrderIsTimeOrder(y, x);
      TextEqualityIsTimeEquality(x, y);
    }
  }
}
