/**
 * The matrix scanner of `src/keyscanning.rs`: one strobe line (column) is driven at a time;
 * each poll advances to the next column, scans the key of every row in that column with
 * the row's sense level, and reports each key whose state differs from its previous state.
 */
module KeyScanning {
  import opened Types
  import opened KeyCodes
  import opened StateTypes
  import opened Events
  import opened KeyRecord
  import opened KeyMacro
  import DefaultKey

  /** The index logic of `next_strobe`: the next column, wrapping from the last to the first. */
  function Strobe(cur: nat, cols: nat): (n: nat)
    requires cols > 0
    ensures n < cols
    ensures cur < cols ==> n == (cur + 1) % cols
  {
    if cur >= cols - 1 then 0 else cur + 1
  }

  /** The column strobed after `n` further polls from column `s`. */
  function StrobeAfter(s: nat, cols: nat, n: nat): (c: nat)
    requires cols > 0
    ensures c < cols || (n == 0 && c == s)
  {
    if n == 0 then s else Strobe(StrobeAfter(s, cols, n - 1), cols)
  }

  /** Within one sweep, `n` polls from column `s` move `n` columns on, wrapping once past the last. */
  lemma {:induction false} StrobeAfterWraps(s: nat, cols: nat, n: nat)
    requires 0 < cols && s < cols && n <= cols
    ensures StrobeAfter(s, cols, n) == if s + n < cols then s + n else s + n - cols
  {
    if n > 0 {
      StrobeAfterWraps(s, cols, n - 1);
    }
  }

  /** The columns strobed by `cols` consecutive polls from column `s`, in order. */
  function Sweep(s: nat, cols: nat): (w: seq<nat>)
    requires cols > 0
    ensures |w| == cols && forall i | 0 <= i < cols :: w[i] == StrobeAfter(s, cols, i + 1)
  {
    seq(cols, i requires 0 <= i < cols => StrobeAfter(s, cols, i + 1))
  }

  /**
   * A sweep of `cols` consecutive polls from any column visits every column exactly once:
   * each column is the strobe of some poll in the sweep, and no two polls share a column.
   */
  lemma SweepVisitsEveryColumnOnce(s: nat, cols: nat)
    requires 0 < cols && s < cols
    ensures forall c | 0 <= c < cols :: c in Sweep(s, cols)
    ensures forall i, j | 0 <= i < j < cols :: Sweep(s, cols)[i] != Sweep(s, cols)[j]
  {
    var w := Sweep(s, cols);
    forall i | 0 <= i < cols
      ensures w[i] == if s + i + 1 < cols then s + i + 1 else s + i + 1 - cols
    {
      StrobeAfterWraps(s, cols, i + 1);
    }
    forall c | 0 <= c < cols
      ensures c in w
    {
      var i := if c > s then c - s - 1 else c + cols - s - 1;
      assert w[i] == c;
    }
  }

  /** One callback invocation: 1-based row and column, then the state and the previous state. */
  datatype Edge = Edge(row: nat, col: nat, state: StateType, prevstate: StateType)

  /** The callback for the key `k` at (0-based) row `r` and column `c`, if its state changed. */
  function EdgeOf(k: KeyData, r: nat, c: nat): (e: seq<Edge>)
    ensures |e| <= 1
  {
    if k.state != k.prevstate then [Edge(r + 1, c + 1, k.state, k.prevstate)] else []
  }

  /**
   * The callbacks of a poll of column `c` whose keys ended up as `column` (one per row):
   * one per key whose state differs from its previous state, in row order.
   */
  function EdgesOf(column: seq<KeyData>, c: nat): seq<Edge>
  {
    if column == [] then []
    else EdgesOf(column[..|column| - 1], c) + EdgeOf(column[|column| - 1], |column| - 1, c)
  }

  /**
   * Each callback names a key of the column by its 1-based row and column and reports that
   * key's state and previous state, which differ; the rows increase.
   */
  lemma {:induction false} EdgesOfSound(column: seq<KeyData>, c: nat)
    ensures forall k | 0 <= k < |EdgesOf(column, c)| ::
      var e := EdgesOf(column, c)[k];
      && 1 <= e.row <= |column| && e.col == c + 1
      && e.state == column[e.row - 1].state && e.prevstate == column[e.row - 1].prevstate
      && e.state != e.prevstate
    ensures forall k, l | 0 <= k < l < |EdgesOf(column, c)| :: EdgesOf(column, c)[k].row < EdgesOf(column, c)[l].row
  {
    if column != [] {
      var n := |column|;
      var first := column[..n - 1];
      var prefix: seq<Edge> := EdgesOf(first, c);
      var tail: seq<Edge> := EdgeOf(column[n - 1], n - 1, c);
      var edges := prefix + tail;
      EdgesOfSound(first, c);
      assert EdgesOf(column, c) == edges;
      forall k | 0 <= k < |edges|
        ensures 1 <= edges[k].row <= n && edges[k].col == c + 1
        ensures edges[k].state == column[edges[k].row - 1].state
        ensures edges[k].prevstate == column[edges[k].row - 1].prevstate
        ensures edges[k].state != edges[k].prevstate
        ensures k < |prefix| ==> edges[k].row < n
      {
        if k < |prefix| {
          assert edges[k] == prefix[k];
          assert first[edges[k].row - 1] == column[edges[k].row - 1];
        } else {
          assert edges[k] == tail[0];
        }
      }
    }
  }

  /** Every key of the column whose state differs from its previous state has a callback. */
  lemma {:induction false} EdgesOfComplete(column: seq<KeyData>, c: nat, r: nat)
    requires r < |column| && column[r].state != column[r].prevstate
    ensures exists k | 0 <= k < |EdgesOf(column, c)| :: EdgesOf(column, c)[k].row == r + 1
  {
    var n := |column|;
    var first := column[..n - 1];
    var prefix: seq<Edge> := EdgesOf(first, c);
    var last := column[n - 1];
    var tail: seq<Edge> := EdgeOf(last, n - 1, c);
    assert EdgesOf(column, c) == prefix + tail;
    if r == n - 1 {
      assert (prefix + tail)[|prefix|].row == r + 1;
    } else {
      assert first[r] == column[r];
      EdgesOfComplete(first, c, r);
      var k :| 0 <= k < |prefix| && prefix[k].row == r + 1;
      assert (prefix + tail)[k] == prefix[k];
    }
  }

  /** The keys of a column after scanning each with its row's level. */
  function ColumnKeys(pre: seq<KeyData>, sense: seq<bool>, scan: Scanner): (post: seq<KeyData>)
    requires |pre| == |sense|
    ensures |post| == |pre| && forall i | 0 <= i < |pre| :: post[i] == scan(pre[i], sense[i]).key
  {
    seq(|pre|, i requires 0 <= i < |pre| => scan(pre[i], sense[i]).key)
  }

  /** The events of scanning each key of a column with its row's level, in row order. */
  function ColumnEvents(pre: seq<KeyData>, sense: seq<bool>, scan: Scanner): seq<Event>
    requires |pre| == |sense|
  {
    if pre == [] then []
    else
      var n := |pre|;
      ColumnEvents(pre[..n - 1], sense[..n - 1], scan) + scan(pre[n - 1], sense[n - 1]).events
  }

  /** Extending a scanned prefix of a column by one row appends the events of scanning that row. */
  lemma ColumnEventsSnoc(pre: seq<KeyData>, sense: seq<bool>, scan: Scanner, r: nat)
    requires |pre| == |sense| && r < |pre|
    ensures ColumnEvents(pre[..r + 1], sense[..r + 1], scan) == ColumnEvents(pre[..r], sense[..r], scan) + scan(pre[r], sense[r]).events
  {
    assert pre[..r + 1][..r] == pre[..r] && sense[..r + 1][..r] == sense[..r];
  }

  /** Extending a prefix of a column by one row appends at most that row's callback. */
  lemma EdgesOfSnoc(column: seq<KeyData>, c: nat, r: nat)
    requires r < |column|
    ensures EdgesOf(column[..r + 1], c) == EdgesOf(column[..r], c) + EdgeOf(column[r], r, c)
  {
    assert column[..r + 1][..r] == column[..r];
  }

  /** The keys of column `c`, top row first. */
  function Column(a: array2<KeyData>, c: nat): (col: seq<KeyData>)
    requires c < a.Length1
    reads a
    ensures |col| == a.Length0 && forall r | 0 <= r < a.Length0 :: col[r] == a[r, c]
  {
    seq(a.Length0, r requires 0 <= r < a.Length0 reads a => a[r, c])
  }

  /** `Matrix`: a grid of keys and the index of the column being strobed. */
  class Matrix {
    const rows: nat
    const cols: nat
    const keys: array2<KeyData>
    var curStrobe: nat

    ghost predicate Valid()
      reads this
    {
      keys.Length0 == rows && keys.Length1 == cols && 0 < cols && curStrobe < cols
    }

    /**
     * `Matrix::new`: the strobe at column 0 and every key `Key::new(________)`. The keymap
     * argument is not used. With no columns the first strobe panics, hence `cols > 0`.
     */
    constructor (rows: nat, cols: nat)
      requires cols > 0
      ensures Valid() && this.rows == rows && this.cols == cols && curStrobe == 0 && fresh(keys)
      ensures forall r, c | 0 <= r < rows && 0 <= c < cols :: keys[r, c] == DefaultKey.New(Emp, None)
    {
      this.rows := rows;
      this.cols := cols;
      keys := new KeyData[rows, cols]((r, c) => DefaultKey.New(Emp, None));
      curStrobe := 0;
    }

    /** `next_strobe`: move the strobe to the next column, wrapping around. */
    method NextStrobe()
      requires Valid()
      modifies this
      ensures Valid() && curStrobe == Strobe(old(curStrobe), cols)
    {
      if curStrobe >= cols - 1 {
        curStrobe := 0;
      } else {
        curStrobe := curStrobe + 1;
      }
    }

    /**
     * `poll`: strobe the next column, scan its key in each row, top to bottom, with that
     * row's sense level, and report the keys whose state now differs from the previous one.
     * Keys of the other columns do not change.
     */
    method Poll(sense: seq<bool>, ctx: Context) returns (edges: seq<Edge>, events: seq<Event>)
      requires Valid() && |sense| == rows
      modifies this, keys
      ensures Valid() && curStrobe == Strobe(old(curStrobe), cols)
      ensures Column(keys, curStrobe) == ColumnKeys(old(Column(keys, Strobe(curStrobe, cols))), sense, ScanIn(ctx))
      ensures forall r, c | 0 <= r < rows && 0 <= c < cols && c != curStrobe :: keys[r, c] == old(keys[r, c])
      ensures edges == EdgesOf(Column(keys, curStrobe), curStrobe)
      ensures events == ColumnEvents(old(Column(keys, Strobe(curStrobe, cols))), sense, ScanIn(ctx))
    {
      NextStrobe();
      edges, events := ScanColumn(curStrobe, sense, ScanIn(ctx));
    }

    /** The row loop of `poll` over the strobed column `c`. */
    method ScanColumn(c: nat, sense: seq<bool>, scan: Scanner) returns (edges: seq<Edge>, events: seq<Event>)
      requires Valid() && c < cols && |sense| == rows
      modifies keys
      ensures Column(keys, c) == ColumnKeys(old(Column(keys, c)), sense, scan)
      ensures forall r, j | 0 <= r < rows && 0 <= j < cols && j != c :: keys[r, j] == old(keys[r, j])
      ensures edges == EdgesOf(Column(keys, c), c)
      ensures events == ColumnEvents(old(Column(keys, c)), sense, scan)
    {
      ghost var pre := Column(keys, c);
      ghost var post := ColumnKeys(pre, sense, scan);
      edges, events := [], [];
      var r := 0;
      while r < rows
        invariant 0 <= r <= rows
        invariant forall i | 0 <= i < r :: keys[i, c] == post[i]
        invariant forall i, j | 0 <= i < rows && 0 <= j < cols && (j != c || r <= i) :: keys[i, j] == old(keys[i, j])
        invariant edges == EdgesOf(post[..r], c)
        invariant events == ColumnEvents(pre[..r], sense[..r], scan)
      {
        var o := scan(keys[r, c], sense[r]);
        var k := o.key;
        assert k == post[r];
        label before:
        keys[r, c] := k;
        assert forall i, j | 0 <= i < rows && 0 <= j < cols && (i != r || j != c) :: keys[i, j] == old@before(keys[i, j]);
        events := events + o.events;
        edges := edges + EdgeOf(k, r, c);
        EdgesOfSnoc(post, c, r);
        ColumnEventsSnoc(pre, sense, scan, r);
        r := r + 1;
      }
      assert pre[..rows] == pre && sense[..rows] == sense && post[..rows] == post;
      assert Column(keys, c) == post;
    }
  }
}
