/** The persistent store (`SQLiteStore`): two append-only tables, snapshots of
    the round state for recovery and the leaderboard of scored candidates,
    with a query for the most recent snapshot and one for the best entries.

    The tables are sequences of rows in insertion order. Timestamps are passed
    in explicitly instead of being read from the clock, scores are integers,
    and JSON serialisation is taken to be lossless, so a row holds the
    dictionaries themselves. */
module Storage {
  import opened Values

  /** A row of `snapshots(ts, round_idx, state_json)`. */
  datatype Snapshot = Snapshot(ts: int, roundIdx: int, state: Dict)

  /** A row of `leaderboard(ts, expr, settings_json, score, comment)`. */
  datatype Entry = Entry(ts: int, expr: string, settings: Dict, score: int, comment: string)

  /** What `top_k` returns for a row: `expr`, `settings`, `score`, `ts`. */
  datatype Ranked = Ranked(expr: string, settings: Dict, score: int, ts: int)

  function Rank(e: Entry): Ranked {
    Ranked(e.expr, e.settings, e.score, e.ts)
  }

  const DefaultTopK: int := 5

  /** `CREATE TABLE IF NOT EXISTS`: a table already in the file keeps its
      rows; a missing one starts empty. */
  function CreateIfNotExists<R>(table: Option<seq<R>>): seq<R> {
    if table.Some? then table.value else []
  }

  /** Creating the tables a second time changes nothing. */
  lemma CreateIsIdempotent<R>(table: Option<seq<R>>)
    ensures CreateIfNotExists(Some(CreateIfNotExists(table))) == CreateIfNotExists(table)
    ensures table.Some? ==> CreateIfNotExists(table) == table.value
  {
  }

  /** `state` is the state of a snapshot whose timestamp no other snapshot
      exceeds; among snapshots with equal timestamps any may be meant. */
  ghost predicate IsLatestState(snaps: seq<Snapshot>, state: Dict) {
    exists i :: 0 <= i < |snaps| && snaps[i].state == state &&
      forall j :: 0 <= j < |snaps| ==> snaps[j].ts <= snaps[i].ts
  }

  /** A snapshot stamped later than every earlier one is the one recovery
      reads back. */
  lemma LaterSnapshotWins(snaps: seq<Snapshot>, s: Snapshot, state: Dict)
    requires forall j :: 0 <= j < |snaps| ==> snaps[j].ts < s.ts
    requires IsLatestState(snaps + [s], state)
    ensures state == s.state
  {
    var all := snaps + [s];
    var i :| 0 <= i < |all| && all[i].state == state &&
      forall j :: 0 <= j < |all| ==> all[j].ts <= all[i].ts;
    assert all[|snaps|] == s;
  }

  /** `r` is the projection of some row of `board`. */
  predicate IsStoredRow(board: seq<Entry>, r: Ranked) {
    exists i :: 0 <= i < |board| && r == Rank(board[i])
  }

  /** `rows` answers `ORDER BY score DESC LIMIT k` over `board`, `from[j]`
      being the row behind `rows[j]`: as many rows as the limit allows (a
      negative limit is no limit to SQLite), distinct stored rows without
      their comment, in non-increasing score order, and no row left out
      scores higher than a row returned. Rows of equal score may come in any
      order. */
  ghost predicate IsTopK(board: seq<Entry>, k: int, rows: seq<Ranked>, from: seq<nat>) {
    && |rows| == (if k < 0 || k > |board| then |board| else k)
    && |from| == |rows|
    && (forall j :: 0 <= j < |from| ==> from[j] < |board| && rows[j] == Rank(board[from[j]]))
    && (forall j, j' :: 0 <= j < j' < |from| ==> from[j] != from[j'])
    && (forall j, j' :: 0 <= j < j' < |rows| ==> rows[j].score >= rows[j'].score)
    && (forall i, j :: 0 <= i < |board| && i !in from && 0 <= j < |rows| ==> board[i].score <= rows[j].score)
  }

  /** Three entries scored 5, 9 and 3: the best two are the 9 and then the 5. */
  lemma TopTwoOfThree(a: Entry, b: Entry, c: Entry, rows: seq<Ranked>, from: seq<nat>)
    requires a.score == 5 && b.score == 9 && c.score == 3
    requires IsTopK([a, b, c], 2, rows, from)
    ensures rows == [Rank(b), Rank(a)]
  {
    assert from[0] < 3 && from[1] < 3 && from[0] != from[1];
    var first, second := rows[0].score, rows[1].score;
    assert first >= second;
    assert 1 in from || b.score <= first;
    assert from[0] == 1;
    assert 0 in from || a.score <= second;
    assert from[1] == 0;
  }

  class Store {
    var snapshots: seq<Snapshot>
    var leaderboard: seq<Entry>

    /** Opening a database file that may already hold either table. */
    constructor (onDiskSnapshots: Option<seq<Snapshot>>, onDiskLeaderboard: Option<seq<Entry>>)
      ensures snapshots == CreateIfNotExists(onDiskSnapshots)
      ensures leaderboard == CreateIfNotExists(onDiskLeaderboard)
    {
      snapshots := CreateIfNotExists(onDiskSnapshots);
      leaderboard := CreateIfNotExists(onDiskLeaderboard);
    }

    /** `_init` run again on an open store: both tables exist, so their rows stay. */
    method Init()
      modifies this
      ensures snapshots == old(snapshots) && leaderboard == old(leaderboard)
    {
      CreateIsIdempotent(Some(snapshots));
      CreateIsIdempotent(Some(leaderboard));
      snapshots := CreateIfNotExists(Some(snapshots));
      leaderboard := CreateIfNotExists(Some(leaderboard));
    }

    /** `save_snapshot`: exactly one row is appended. */
    method SaveSnapshot(ts: int, roundIdx: int, state: Dict)
      modifies this
      ensures snapshots == old(snapshots) + [Snapshot(ts, roundIdx, state)]
      ensures leaderboard == old(leaderboard)
    {
      snapshots := snapshots + [Snapshot(ts, roundIdx, state)];
    }

    /** `load_latest_snapshot`: `{}` when there is no snapshot, otherwise the
        state of one with the greatest timestamp. */
    method LoadLatestSnapshot() returns (state: Dict)
      ensures snapshots == [] ==> state == map[]
      ensures snapshots != [] ==> IsLatestState(snapshots, state)
    {
      if |snapshots| == 0 {
        return map[];
      }
      var best := 0;
      var i := 1;
      while i < |snapshots|
        invariant 0 <= best < i <= |snapshots|
        invariant forall j :: 0 <= j < i ==> snapshots[j].ts <= snapshots[best].ts
      {
        if snapshots[i].ts > snapshots[best].ts {
          best := i;
        }
        i := i + 1;
      }
      state := snapshots[best].state;
    }

    /** `add_leaderboard`: exactly one row is appended. */
    method AddLeaderboard(ts: int, expr: string, settings: Dict, score: int, comment: string := "")
      modifies this
      ensures leaderboard == old(leaderboard) + [Entry(ts, expr, settings, score, comment)]
      ensures snapshots == old(snapshots)
    {
      leaderboard := leaderboard + [Entry(ts, expr, settings, score, comment)];
    }

    /** `top_k`: `ORDER BY score DESC LIMIT k`. The ghost `from` names the
        stored row behind each result. */
    method TopK(k: int := DefaultTopK) returns (rows: seq<Ranked>, ghost from: seq<nat>)
      ensures |rows| == (if k < 0 || k > |leaderboard| then |leaderboard| else k)
      ensures forall j, j' :: 0 <= j < j' < |rows| ==> rows[j].score >= rows[j'].score
      ensures forall j :: 0 <= j < |rows| ==> IsStoredRow(leaderboard, rows[j])
      ensures IsTopK(leaderboard, k, rows, from)
    {
      var limit := if k < 0 || k > |leaderboard| then |leaderboard| else k;
      var picked: seq<nat> := [];
      rows := [];
      while |rows| < limit
        invariant |rows| <= limit
        invariant |picked| == |rows|
        invariant forall j :: 0 <= j < |picked| ==> picked[j] < |leaderboard| && rows[j] == Rank(leaderboard[picked[j]])
        invariant forall j, j' :: 0 <= j < j' < |picked| ==> picked[j] != picked[j']
        invariant forall j, j' :: 0 <= j < j' < |rows| ==> rows[j].score >= rows[j'].score
        invariant forall i, j :: 0 <= i < |leaderboard| && i !in picked && 0 <= j < |rows| ==>
                    leaderboard[i].score <= rows[j].score
      {
        SomeIndexUnused(picked, |leaderboard|);
        var best := BestRemaining(picked);
        rows := rows + [Rank(leaderboard[best])];
        picked := picked + [best];
      }
      from := picked;
      forall j | 0 <= j < |rows|
        ensures IsStoredRow(leaderboard, rows[j])
      {
        assert rows[j] == Rank(leaderboard[picked[j]]);
      }
    }

    /** The first row not yet picked with the highest score. */
    method BestRemaining(picked: seq<nat>) returns (best: nat)
      requires exists i :: 0 <= i < |leaderboard| && i !in picked
      ensures best < |leaderboard| && best !in picked
      ensures forall i :: 0 <= i < |leaderboard| && i !in picked ==> leaderboard[i].score <= leaderboard[best].score
    {
      var i := 0;
      var found := false;
      best := 0;
      while i < |leaderboard|
        invariant 0 <= i <= |leaderboard|
        invariant found ==> best < i && best !in picked
        invariant found <==> exists j :: 0 <= j < i && j !in picked
        invariant found ==> forall j :: 0 <= j < i && j !in picked ==> leaderboard[j].score <= leaderboard[best].score
      {
        if i !in picked && (!found || leaderboard[i].score > leaderboard[best].score) {
          best := i;
          found := true;
        }
        i := i + 1;
      }
    }
  }

  /** Fewer than n picks leave some index below n unpicked. */
  lemma {:induction false} SomeIndexUnused(picked: seq<nat>, n: nat)
    requires |picked| < n
    ensures exists i :: 0 <= i < n && i !in picked
  {
    if n - 1 in picked {
      var k :| 0 <= k < |picked| && picked[k] == n - 1;
      var rest := picked[..k] + picked[k + 1..];
      SomeIndexUnused(rest, n - 1);
      var i :| 0 <= i < n - 1 && i !in rest;
      assert picked == picked[..k] + [n - 1] + picked[k + 1..];
      assert i !in picked;
    }
  }
}
