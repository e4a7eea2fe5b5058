/** Start, CompleteArtist and Reconcile interleaved: each database transaction
    and each locked append is one atomic step, an operation may stop for good
    between any two of its steps, and a publish whose outcome its append never
    learnt may land at any later time. */
module BatchWorld {
  import opened BatchAggregate
  import opened BatchTables

  /** One batch's part of a Reconcile that still has to be logged. */
  datatype Group = Group(batch: string, artists: seq<string>)

  /** An operation between two of its steps. */
  datatype Op =
    | Starting(id: string, artists: seq<string>, stats: map<string, int>)   // logged, rows not yet inserted
    | Found(f: Flip)                                                        // CompleteArtist before its append
    | Logged(f: Flip)                                                       // CompleteArtist before its mark
    | Selected(flips: seq<Flip>)                                            // Reconcile before its write
    | Owing(todo: seq<Group>)                                               // Reconcile before its appends

  /** What one append of a command's facts came to: everything stored; all
      completions stored but the closing fact lost in a failed cached append;
      or an error after a prefix was stored. */
  datatype Outcome = Whole | CloseLost | Broken(k: nat)

  /** A publish under way that nobody waits for any more: it is stored if it
      arrives while the batch's stream is still `at` facts long. */
  datatype Flight = Flight(batch: string, at: nat, fact: Fact)

  datatype World = World(logs: map<string, seq<Fact>>, rows: Rows, pending: set<string>, pruned: set<string>,
                         ops: map<nat, Op>, flights: set<Flight>)

  /** `late`: the publish of the first fact that was not stored is still under way. */
  datatype Action =
    | BeginStart(o: nat, id: string, artists: seq<string>, stats: map<string, int>, outcome: Outcome, late: bool)
    | FinishStart(o: nat, expired: set<string>)
    | Restart(id: string, artists: seq<string>, stats: map<string, int>, expired: set<string>)
    | Find(o: nat, f: Flip)
    | LogFound(o: nat, outcome: Outcome, late: bool)
    | MarkLogged(o: nat)
    | Select(o: nat, flips: seq<Flip>)
    | FlipSelected(o: nat)
    | LogGroup(o: nat, outcome: Outcome, late: bool)
    | Land(flight: Flight)
    | Crash(o: nat)
    | PruneRows(expired: set<string>)
    | SetPending(artist: string, on: bool)

  const NOBODY := World(map[], map[], {}, {}, map[], {})

  function Stored(b: Batch, artists: seq<string>, outcome: Outcome): seq<Fact> {
    match outcome
    case Whole => Recorded(b, artists)
    case CloseLost => Completions(b, artists)
    case Broken(k) => if k <= |Recorded(b, artists)| then Recorded(b, artists)[..k] else Recorded(b, artists)
  }

  function StreamOf(w: World, batch: string): seq<Fact> {
    if batch in w.logs then w.logs[batch] else []
  }

  function AggregateOf(w: World, batch: string): Batch {
    Fold(StreamOf(w, batch))
  }

  function Append(w: World, g: Group, outcome: Outcome): World {
    w.(logs := w.logs[g.batch := StreamOf(w, g.batch) + Stored(AggregateOf(w, g.batch), g.artists, outcome)])
  }

  /** What is under way after `stored` of a command's facts were stored behind
      the first `base` facts of a stream. */
  function Late(batch: string, base: nat, stored: nat, facts: seq<Fact>, late: bool): set<Flight> {
    if late && stored < |facts| then {Flight(batch, base + stored, facts[stored])} else {}
  }

  function LateAppend(w: World, g: Group, outcome: Outcome, late: bool): set<Flight> {
    var b := AggregateOf(w, g.batch);
    Late(g.batch, |StreamOf(w, g.batch)|, |Stored(b, g.artists, outcome)|, Recorded(b, g.artists), late)
  }

  /** What a new stream starts with: everything, the first fact only, or an error. */
  function Born(birth: seq<Fact>, outcome: Outcome): seq<Fact>
    requires birth != []
  {
    match outcome
    case Whole => birth
    case CloseLost => birth[..1]
    case Broken(k) => if k <= |birth| then birth[..k] else birth
  }

  function Landed(w: World, flight: Flight): World {
    if flight.at == |StreamOf(w, flight.batch)|
    then w.(logs := w.logs[flight.batch := StreamOf(w, flight.batch) + [flight.fact]])
    else w
  }

  function AddFlip(groups: seq<Group>, f: Flip): seq<Group> {
    if groups == [] then [Group(f.batch, [f.artist])]
    else if groups[0].batch == f.batch then [groups[0].(artists := groups[0].artists + [f.artist])] + groups[1..]
    else [groups[0]] + AddFlip(groups[1..], f)
  }

  function Grouped(flips: seq<Flip>): seq<Group> {
    if flips == [] then [] else AddFlip(Grouped(flips[..|flips| - 1]), flips[|flips| - 1])
  }

  function Flips(flips: seq<Flip>): set<Flip> {
    set f | f in flips
  }

  function Deleted(rows: Rows, expired: set<string>): set<string> {
    set id | id in rows && id in expired && rows[id].done
  }

  ghost predicate Enabled(w: World, a: Action) {
    match a
    case BeginStart(o, id, artists, stats, _, _) =>
      && o !in w.ops && id != "" && Distinct(artists) && "" !in artists
      && id !in w.rows && id !in w.pruned
      && (forall p :: p in w.ops && w.ops[p].Starting? ==> w.ops[p].id != id)
      && (id in w.logs ==> Begun(w.logs[id]) && w.logs[id][0] == Started(Unique(artists), stats))
    case FinishStart(o, _) => o in w.ops && w.ops[o].Starting?
    case Restart(id, artists, _, _) => id in w.rows && Names(artists) <= w.rows[id].members.Keys
    case Find(o, f) =>
      && o !in w.ops && f.batch in w.rows && !w.rows[f.batch].done
      && f.artist in w.rows[f.batch].members && !w.rows[f.batch].members[f.artist]
    case LogFound(o, _, _) => o in w.ops && w.ops[o].Found?
    case MarkLogged(o) => o in w.ops && w.ops[o].Logged?
    case Select(o, flips) => o !in w.ops && flips != [] && forall f :: f in flips <==> Selectable(w.rows, w.pending, f)
    case FlipSelected(o) => o in w.ops && w.ops[o].Selected?
    case LogGroup(o, _, _) => o in w.ops && w.ops[o].Owing? && w.ops[o].todo != []
    case Land(flight) => flight in w.flights
    case Crash(o) => o in w.ops
    case PruneRows(_) => true
    case SetPending(_, _) => true
  }

  function Step(w: World, a: Action): World
    requires Enabled(w, a)
  {
    match a
    case BeginStart(o, id, artists, stats, outcome, late) =>
      if id in w.logs then w.(ops := w.ops[o := Starting(id, artists, stats)])   // conflict: it already started
      else
        var birth := Birth(artists, stats);
        var born := Born(birth, outcome);
        w.(logs := if born == [] then w.logs else w.logs[id := born],
           ops := if outcome.Broken? then w.ops else w.ops[o := Starting(id, artists, stats)],
           flights := w.flights + Late(id, 0, |born|, birth, late))
    case FinishStart(o, expired) =>
      var op := w.ops[o];
      var rows := Insert(w.rows, op.id, op.artists, op.stats);
      w.(rows := Prune(rows, expired), pruned := w.pruned + Deleted(rows, expired), ops := w.ops - {o})
    case Restart(id, artists, stats, expired) =>
      var rows := Insert(w.rows, id, artists, stats);
      w.(rows := Prune(rows, expired), pruned := w.pruned + Deleted(rows, expired))
    case Find(o, f) => w.(ops := w.ops[o := Found(f)])
    case LogFound(o, outcome, late) =>
      var f := w.ops[o].f;
      var w' := Append(w, Group(f.batch, [f.artist]), outcome);
      w'.(ops := if outcome.Broken? then w.ops - {o} else w.ops[o := Logged(f)],
          flights := w.flights + LateAppend(w, Group(f.batch, [f.artist]), outcome, late))
    case MarkLogged(o) =>
      w.(rows := MarkMember(w.rows, w.ops[o].f.batch, w.ops[o].f.artist), ops := w.ops - {o})
    case Select(o, flips) => w.(ops := w.ops[o := Selected(flips)])
    case FlipSelected(o) =>
      w.(rows := ApplyFlips(w.rows, Flips(w.ops[o].flips)), ops := w.ops[o := Owing(Grouped(w.ops[o].flips))])
    case LogGroup(o, outcome, late) =>
      var todo := w.ops[o].todo;
      var w' := Append(w, todo[0], outcome);
      w'.(ops := if outcome.Broken? || |todo| == 1 then w.ops - {o} else w.ops[o := Owing(todo[1..])],
          flights := w.flights + LateAppend(w, todo[0], outcome, late))
    case Land(flight) => Landed(w, flight)
    case Crash(o) => w.(ops := w.ops - {o})
    case PruneRows(expired) => w.(rows := Prune(w.rows, expired), pruned := w.pruned + Deleted(w.rows, expired))
    case SetPending(artist, on) => w.(pending := if on then w.pending + {artist} else w.pending - {artist})
  }

  /** Nothing went wrong in this step. */
  predicate Smooth(a: Action) {
    match a
    case BeginStart(_, _, _, _, outcome, _) => outcome == Whole
    case LogFound(_, outcome, _) => outcome == Whole
    case LogGroup(_, outcome, _) => outcome == Whole
    case Land(_) => false
    case Crash(_) => false
    case _ => true
  }

  ghost predicate RunsFrom(w: World, run: seq<Action>)
    decreases |run|, 0
  {
    run == [] || (RunsFrom(w, run[..|run| - 1]) && Enabled(After(w, run[..|run| - 1]), run[|run| - 1]))
  }

  ghost function After(w: World, run: seq<Action>): World
    requires RunsFrom(w, run)
    decreases |run|, 1
  {
    if run == [] then w else Step(After(w, run[..|run| - 1]), run[|run| - 1])
  }

  // --------------------------------------------------------- what always holds

  predicate Owes(todo: seq<Group>, f: Flip) {
    exists i :: 0 <= i < |todo| && todo[i].batch == f.batch && f.artist in todo[i].artists
  }

  /** The operation still has something to do for this member. */
  predicate Holds(op: Op, f: Flip) {
    match op
    case Starting(_, _, _) => false
    case Found(g) => f == g
    case Logged(g) => f == g
    case Selected(flips) => f in flips
    case Owing(todo) => Owes(todo, f)
  }

  ghost predicate OpOk(w: World, op: Op) {
    && (op.Starting? ==>
        && op.id in w.logs && op.id !in w.rows && op.id !in w.pruned
        && Distinct(op.artists)
        && AggregateOf(w, op.id).members.Keys == Names(op.artists)
        && AggregateOf(w, op.id).stats == op.stats)
    && (forall f :: Holds(op, f) ==> f.batch in w.logs && (f.batch in w.rows || f.batch in w.pruned))
    && (op.Owing? ==> forall f :: Owes(op.todo, f) && f.batch in w.rows && f.artist in w.rows[f.batch].members
                        ==> w.rows[f.batch].members[f.artist])
  }

  /** Row and stream of one batch speak of the same members. */
  ghost predicate SameMembers(w: World, id: string)
    requires id in w.rows
  {
    && id in w.logs && id !in w.pruned
    && w.rows[id].members.Keys == AggregateOf(w, id).members.Keys
    && w.rows[id].stats == AggregateOf(w, id).stats
  }

  predicate NoBirth(facts: seq<Fact>) {
    forall i :: 0 <= i < |facts| ==> !facts[i].Started?
  }

  /** A stream starts with its birth and is never born again. */
  predicate Begun(log: seq<Fact>) {
    log != [] && log[0].Started? && NoBirth(log[1..])
  }

  ghost predicate AnyoneDone(b: Batch) {
    exists a :: a in b.members && b.members[a]
  }

  /** Nobody has finished in a stream whose batch never had a row. */
  ghost predicate Unprojected(w: World) {
    forall id :: id in w.logs && id !in w.rows && id !in w.pruned ==> !AnyoneDone(AggregateOf(w, id))
  }

  ghost predicate TablesOk(w: World) {
    && RowsOk(w.rows)
    && (forall id :: id in w.logs ==> Begun(w.logs[id]))
    && (forall id :: id in w.rows ==> SameMembers(w, id))
    && Unprojected(w)
  }

  ghost predicate OpsOk(w: World) {
    && (forall o :: o in w.ops ==> OpOk(w, w.ops[o]))
    && (forall o, p ::
          o in w.ops && p in w.ops && w.ops[o].Starting? && w.ops[p].Starting? && w.ops[o].id == w.ops[p].id ==> o == p)
  }

  ghost predicate Inv(w: World) {
    TablesOk(w) && OpsOk(w)
  }

  /** A publish under way is not ahead of its stream, and if it can still land,
      its fact is true. */
  ghost predicate FlightOk(w: World, flight: Flight) {
    && flight.at <= |StreamOf(w, flight.batch)|
    && (flight.at == |StreamOf(w, flight.batch)| ==>
        && Legal(AggregateOf(w, flight.batch), flight.fact)
        && (flight.fact.ArtistCompleted? ==> flight.batch in w.rows || flight.batch in w.pruned))
  }

  /** Streams hold true facts only, now and when something lands. */
  ghost predicate Truthful(w: World) {
    && (forall id :: id in w.logs ==> LegalLog(w.logs[id]))
    && (forall flight :: flight in w.flights ==> FlightOk(w, flight))
  }
}
