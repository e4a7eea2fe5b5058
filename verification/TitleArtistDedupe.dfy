/** Keep the newest record of each (title, artist) pair, in one pass over the
    records in whatever order they come. */
module TitleArtistDedupe {
  import Sorting
  import opened Text

  datatype Record = Record(title: string, artist: string, created: int)

  type Table = map<string, Record>

  const NUL := '\0'

  function Key(r: Record): string {
    r.title + [NUL] + r.artist
  }

  const BLANK := [NUL]

  /** Created later, or at the same time with the higher ID. */
  predicate Newer(table: Table, a: string, b: string) {
    && a in table && b in table
    && (table[a].created > table[b].created || (table[a].created == table[b].created && StringLess(b, a)))
  }

  lemma {:induction false} NewerIsTotal(table: Table, a: string, b: string)
    requires a in table && b in table
    ensures Newer(table, a, b) || Newer(table, b, a) || a == b
    ensures !(Newer(table, a, b) && Newer(table, b, a))
  {
    StringLessIsTotal(a, b);
  }

  lemma {:induction false} NewerChains(table: Table, a: string, b: string, c: string)
    requires Newer(table, a, b) && Newer(table, b, c)
    ensures Newer(table, a, c)
  {
    if StringLess(b, a) && StringLess(c, b) {
      StringLessChains(c, b, a);
    }
  }

  /** `id` is the newest of those of `ids` that share its key. */
  ghost predicate IsNewest(table: Table, ids: set<string>, id: string)
    requires id in table && ids <= table.Keys
  {
    forall x :: x in ids && x != id && Key(table[x]) == Key(table[id]) ==> Newer(table, id, x)
  }

  ghost predicate Survives(table: Table, ids: set<string>, id: string)
    requires id in table && ids <= table.Keys
  {
    Key(table[id]) == BLANK || id !in ids || IsNewest(table, ids, id)
  }

  /** What is left after the records `ids` were looked at. */
  ghost function Kept(table: Table, ids: set<string>): Table
    requires ids <= table.Keys
  {
    map id | id in table && Survives(table, ids, id) :: table[id]
  }

  class Records {
    var table: Table

    constructor (table: Table)
      ensures this.table == table
    {
      this.table := table;
    }

    method Delete(id: string)
      modifies this
      ensures table == old(table) - {id}
    {
      table := table - {id};
    }

    /** A second record of a key: the newer one stays. */
    method KeepNewer(records: Table, prev: string, r: string, ghost done: set<string>) returns (keep: string)
      requires done <= records.Keys && r in records && r !in done && prev in done
      requires Key(records[prev]) == Key(records[r]) != BLANK && IsNewest(records, done, prev)
      requires table == Kept(records, done)
      modifies this
      ensures keep in {prev, r} && IsNewest(records, done + {r}, keep)
      ensures table == Kept(records, done + {r})
    {
      var del := r;
      keep := prev;
      if Newer(records, r, prev) {
        keep, del := r, prev;
      }
      SecondOfKey(records, done, prev, r);
      Delete(del);
    }

    /** One record of the pass. */
    method Visit(records: Table, r: string, seen: map<string, string>, ghost done: set<string>)
      returns (updated: map<string, string>)
      requires SeenOk(records, seen, done) && r in records && r !in done
      requires table == Kept(records, done)
      modifies this
      ensures SeenOk(records, updated, done + {r})
      ensures table == Kept(records, done + {r})
    {
      var key := Key(records[r]);
      updated := seen;
      if key == BLANK {
        SeenBlank(records, seen, done, r);
      } else if key in seen {
        var keep := KeepNewer(records, seen[key], r, done);
        SeenAgain(records, seen, done, r, keep);
        updated := seen[key := keep];
      } else {
        SeenFirst(records, seen, done, r);
        updated := seen[key := r];
      }
    }

    method DedupeTitleArtist()
      modifies this
      ensures table == Kept(old(table), old(table).Keys)
    {
      var records := table;
      var seen: map<string, string> := map[];
      var left := records.Keys;
      ghost var done := {};
      assert Kept(records, {}) == records;
      while left != {}
        invariant left <= records.Keys && done == records.Keys - left
        invariant table == Kept(records, done) && SeenOk(records, seen, done)
      {
        var r :| r in left;
        seen := Visit(records, r, seen, done);
        left, done := left - {r}, done + {r};
      }
      assert done == records.Keys;
    }
  }

  /** `seen` names the newest record of every key seen so far. */
  ghost predicate SeenOk(table: Table, seen: map<string, string>, done: set<string>) {
    && done <= table.Keys
    && (forall key :: key in seen ==>
          key != BLANK && seen[key] in done && Key(table[seen[key]]) == key && IsNewest(table, done, seen[key]))
    && (forall id :: id in done && Key(table[id]) != BLANK ==> Key(table[id]) in seen)
  }

  lemma {:induction false} BlankIsKept(table: Table, done: set<string>, r: string)
    requires done <= table.Keys && r in table && Key(table[r]) == BLANK
    ensures Kept(table, done + {r}) == Kept(table, done)
    ensures forall id :: id in table && Key(table[id]) != BLANK ==>
              (IsNewest(table, done, id) <==> IsNewest(table, done + {r}, id))
  {
  }

  lemma {:induction false} FirstOfKey(table: Table, done: set<string>, r: string)
    requires done <= table.Keys && r in table && r !in done && forall x :: x in done ==> Key(table[x]) != Key(table[r])
    ensures Kept(table, done + {r}) == Kept(table, done)
    ensures IsNewest(table, done + {r}, r)
    ensures forall id :: id in table && Key(table[id]) != Key(table[r]) ==>
              (IsNewest(table, done, id) <==> IsNewest(table, done + {r}, id))
  {
  }

  lemma {:induction false} SecondOfKey(table: Table, done: set<string>, prev: string, r: string)
    requires done <= table.Keys && r in table && r !in done && prev in done
    requires Key(table[prev]) == Key(table[r]) != BLANK && IsNewest(table, done, prev)
    ensures var keep, del := if Newer(table, r, prev) then r else prev, if Newer(table, r, prev) then prev else r;
            && Kept(table, done + {r}) == Kept(table, done) - {del}
            && IsNewest(table, done + {r}, keep)
    ensures forall id :: id in table && Key(table[id]) != Key(table[r]) ==>
              (IsNewest(table, done, id) <==> IsNewest(table, done + {r}, id))
  {
    var now := done + {r};
    NewerIsTotal(table, r, prev);
    var keep, del := if Newer(table, r, prev) then r else prev, if Newer(table, r, prev) then prev else r;
    forall x | x in now && x != keep && Key(table[x]) == Key(table[keep]) ensures Newer(table, keep, x) {
      if keep == r && x != prev {
        NewerChains(table, r, prev, x);
      }
    }
    forall id | id in table && id != del ensures Survives(table, now, id) <==> Survives(table, done, id) {
      if id in done && Key(table[id]) == Key(table[r]) && id != prev {
        NewerIsTotal(table, id, prev);
      }
    }
    assert !Survives(table, now, del) by {
      assert del in now && Newer(table, keep, del);
      NewerIsTotal(table, keep, del);
    }
    assert Kept(table, now) == Kept(table, done) - {del};
  }

  lemma {:induction false} SeenBlank(table: Table, seen: map<string, string>, done: set<string>, r: string)
    requires SeenOk(table, seen, done) && r in table && Key(table[r]) == BLANK
    ensures SeenOk(table, seen, done + {r}) && Kept(table, done + {r}) == Kept(table, done)
  {
    BlankIsKept(table, done, r);
  }

  lemma {:induction false} SeenFirst(table: Table, seen: map<string, string>, done: set<string>, r: string)
    requires SeenOk(table, seen, done) && r in table && r !in done && Key(table[r]) != BLANK && Key(table[r]) !in seen
    ensures SeenOk(table, seen[Key(table[r]) := r], done + {r}) && Kept(table, done + {r}) == Kept(table, done)
  {
    FirstOfKey(table, done, r);
  }

  lemma {:induction false} SeenAgain(table: Table, seen: map<string, string>, done: set<string>, r: string,
      keep: string)
    requires SeenOk(table, seen, done) && r in table && r !in done && Key(table[r]) != BLANK && Key(table[r]) in seen
    requires keep in {seen[Key(table[r])], r} && IsNewest(table, done + {r}, keep)
    ensures SeenOk(table, seen[Key(table[r]) := keep], done + {r})
  {
    SecondOfKey(table, done, seen[Key(table[r])], r);
  }

  // ------------------------------------------------------- what it comes to

  lemma {:induction false} NewestOf(table: Table, ids: set<string>) returns (id: string)
    requires ids <= table.Keys && ids != {}
    ensures id in ids && forall x :: x in ids && x != id ==> Newer(table, id, x)
  {
    var newer := (a, b) => Newer(table, a, b);
    forall a, b | a in ids && b in ids && a != b ensures newer(a, b) || newer(b, a) {
      NewerIsTotal(table, a, b);
    }
    forall a, b, c | a in ids && b in ids && c in ids && newer(a, b) && newer(b, c) ensures newer(a, c) {
      NewerChains(table, a, b, c);
    }
    id := Sorting.FirstOf(ids, newer);
  }

  /** Of every non-blank key exactly one record is kept, the newest. */
  lemma {:induction false} OneOfEachKey(table: Table, key: string) returns (id: string)
    requires key != BLANK && exists x :: x in table && Key(table[x]) == key
    ensures id in Kept(table, table.Keys) && Key(table[id]) == key
    ensures forall x :: x in table && x != id && Key(table[x]) == key ==>
              Newer(table, id, x) && x !in Kept(table, table.Keys)
  {
    var ids := set x | x in table && Key(table[x]) == key;
    var y :| y in table && Key(table[y]) == key;
    assert y in ids;
    id := NewestOf(table, ids);
    forall x | x in table && x != id && Key(table[x]) == key
      ensures Newer(table, id, x) && x !in Kept(table, table.Keys)
    {
      assert x in ids;
      NewerIsTotal(table, id, x);
      assert !IsNewest(table, table.Keys, x);
    }
  }

  /** Blank records are all kept. */
  lemma {:induction false} BlankRecordsStay(table: Table, id: string)
    requires id in table && table[id].title == "" && table[id].artist == ""
    ensures id in Kept(table, table.Keys)
  {
    OnlyEmptyIsBlank(table[id]);
  }

  /** A second pass deletes nothing. */
  lemma {:induction false} SecondPassKeepsAll(table: Table)
    ensures var once := Kept(table, table.Keys); Kept(once, once.Keys) == once
  {
    var once := Kept(table, table.Keys);
    forall id | id in once ensures Survives(once, once.Keys, id) {
      if Key(table[id]) != BLANK {
        forall x | x in once && x != id && Key(once[x]) == Key(once[id]) ensures Newer(once, id, x) {
          assert IsNewest(table, table.Keys, id);
        }
      }
    }
  }

  /** The longer title goes on behind a NUL, with what the other record has in
      front of its own. */
  predicate Shifted(x: Record, y: Record) {
    && |x.title| < |y.title| && y.title[..|x.title|] == x.title && y.title[|x.title|] == NUL
    && x.artist == y.title[|x.title| + 1..] + [NUL] + y.artist
  }

  lemma {:induction false} LongerTitleSameKey(x: Record, y: Record)
    requires |x.title| < |y.title|
    ensures Key(x) == Key(y) <==> Shifted(x, y)
  {
    var n := |x.title|;
    var rest := y.title[n + 1..];
    if Key(x) == Key(y) {
      assert y.title == Key(y)[..|y.title|];
      assert y.title[..n] == Key(y)[..n] == Key(x)[..n] == x.title;
      assert Key(x)[n] == NUL == Key(y)[n] == y.title[n];
      assert x.artist == Key(x)[n + 1..] == Key(y)[n + 1..] == rest + [NUL] + y.artist;
    }
    if Shifted(x, y) {
      assert y.title == x.title + [NUL] + rest;
    }
  }

  /** Two records share a key exactly when they share the pair, or one title
      goes on behind a NUL where the other record's artist begins. */
  lemma {:induction false} KeysCollide(x: Record, y: Record)
    ensures Key(x) == Key(y) <==> (x.title == y.title && x.artist == y.artist) || Shifted(x, y) || Shifted(y, x)
  {
    if |x.title| < |y.title| {
      LongerTitleSameKey(x, y);
    } else if |y.title| < |x.title| {
      LongerTitleSameKey(y, x);
    } else if Key(x) == Key(y) {
      var k := Key(x);
      assert x.title == k[..|x.title|] == y.title;
      assert x.artist == k[|x.title| + 1..] == y.artist;
    }
  }

  /** So keys stand for (title, artist) pairs as long as no title holds a NUL. */
  lemma {:induction false} KeysArePairs(x: Record, y: Record)
    requires NUL !in x.title && NUL !in y.title
    ensures Key(x) == Key(y) <==> x.title == y.title && x.artist == y.artist
  {
    KeysCollide(x, y);
  }

  /** "a", NUL, "b" by "c" against "a" by "b", NUL, "c": the pass deletes one. */
  lemma {:induction false} CollidingPairs()
    ensures var x, y := Record("a" + [NUL] + "b", "c", 1), Record("a", "b" + [NUL] + "c", 2);
            var table := map["x" := x, "y" := y];
            Key(x) == Key(y) && "x" !in Kept(table, table.Keys)
  {
    var x, y := Record("a" + [NUL] + "b", "c", 1), Record("a", "b" + [NUL] + "c", 2);
    var table := map["x" := x, "y" := y];
    assert x.title[..1] == "a" && x.title[2..] == "b";
    KeysCollide(y, x);
    assert |Key(x)| == 5;
    assert !IsNewest(table, table.Keys, "x") by { assert "y" in table.Keys && !Newer(table, "x", "y"); }
  }

  /** Only the empty pair is blank, whatever the strings hold. */
  lemma {:induction false} OnlyEmptyIsBlank(r: Record)
    ensures Key(r) == BLANK <==> r.title == "" && r.artist == ""
  {
    assert |Key(r)| == |r.title| + 1 + |r.artist|;
    if r.title == "" && r.artist == "" {
      assert Key(r) == BLANK;
    }
  }
}
