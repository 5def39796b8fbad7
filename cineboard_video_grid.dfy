/**
 * The thumbnail grid of cineboard/ui/video_grid.py: a list of paths without
 * repeats, laid out four to a row.
 */
module CineboardGrid {

  const Columns: nat := 4

  /** divmod(i, 4): the (row, column) of the i-th thumbnail. */
  function Cell(i: nat): (rc: (nat, nat))
    ensures rc.1 < Columns
    ensures rc.0 * Columns + rc.1 == i
  {
    (i / Columns, i % Columns)
  }

  /** Distinct thumbnails never share a cell. */
  lemma CellsDistinct(i: nat, j: nat)
    ensures Cell(i) == Cell(j) <==> i == j
  {
  }

  /** Row-major order: a later thumbnail is further down, or on the same row and further right. */
  lemma CellsInReadingOrder(i: nat, j: nat)
    requires i < j
    ensures Cell(i).0 < Cell(j).0 || (Cell(i).0 == Cell(j).0 && Cell(i).1 < Cell(j).1)
  {
  }

  predicate Unique(ps: seq<string>) {
    forall i, j :: 0 <= i < j < |ps| ==> ps[i] != ps[j]
  }

  /** list.remove(path): drops the first occurrence. */
  function RemoveFirst(ps: seq<string>, path: string): (r: seq<string>)
    requires path in ps
    ensures |r| == |ps| - 1
    decreases |ps|
  {
    if ps[0] == path then ps[1..] else [ps[0]] + RemoveFirst(ps[1..], path)
  }

  /** In a list without repeats, removing a path drops exactly its one position and keeps the rest in order. */
  lemma {:induction false} RemoveFirstAt(ps: seq<string>, k: nat)
    requires Unique(ps) && k < |ps|
    ensures RemoveFirst(ps, ps[k]) == ps[..k] + ps[k + 1..]
    decreases k
  {
    if k > 0 {
      var tail, j := ps[1..], k - 1;
      assert tail[j] == ps[k];
      RemoveFirstAt(tail, j);
      assert ps[..k] == [ps[0]] + tail[..j];
      assert ps[k + 1..] == tail[k..];
    }
  }

  /** The position in ps of the i-th entry once position k is cut out. */
  function Skip(k: nat, i: nat): nat {
    if i < k then i else i + 1
  }

  /** Cutting position k out of a list without repeats leaves no repeats, and not that entry. */
  lemma UniqueSplice(ps: seq<string>, k: nat)
    requires Unique(ps) && k < |ps|
    ensures Unique(ps[..k] + ps[k + 1..]) && ps[k] !in ps[..k] + ps[k + 1..]
  {
    var r := ps[..k] + ps[k + 1..];
    forall i | 0 <= i < |r| ensures Skip(k, i) < |ps| && Skip(k, i) != k && r[i] == ps[Skip(k, i)] {
      if i < k {
        assert r[i] == ps[..k][i];
      } else {
        assert r[i] == ps[k + 1..][i - k];
      }
    }
    forall i, j | 0 <= i < j < |r| ensures r[i] != r[j] {
      assert Skip(k, i) < Skip(k, j);
    }
  }

  /** Removing keeps the list free of repeats, and the path is gone. */
  lemma RemoveFirstUnique(ps: seq<string>, path: string)
    requires Unique(ps) && path in ps
    ensures Unique(RemoveFirst(ps, path)) && path !in RemoveFirst(ps, path)
  {
    var k :| 0 <= k < |ps| && ps[k] == path;
    RemoveFirstAt(ps, k);
    UniqueSplice(ps, k);
  }

  class VideoGrid {
    /** self.video_paths */
    var videoPaths: seq<string>
    /** The cell each thumbnail was last placed in by update_grid. */
    var cells: seq<(nat, nat)>
    /** The paths announced with video_removed, in order. */
    var removedSignals: seq<string>

    /** Thumbnail i sits at divmod(i, 4), one cell per path. */
    ghost predicate LaidOut()
      reads this
    {
      && |cells| == |videoPaths|
      && forall i :: 0 <= i < |cells| ==> cells[i] == Cell(i)
    }

    ghost predicate Valid()
      reads this
    {
      Unique(videoPaths) && LaidOut()
    }

    constructor ()
      ensures Valid()
      ensures videoPaths == [] && cells == [] && removedSignals == []
    {
      videoPaths := [];
      cells := [];
      removedSignals := [];
    }

    /** Places thumbnail i at divmod(i, 4), for every path in order. */
    method UpdateGrid()
      modifies this
      ensures |cells| == |videoPaths|
      ensures forall i :: 0 <= i < |cells| ==> cells[i] == Cell(i)
      ensures videoPaths == old(videoPaths) && removedSignals == old(removedSignals)
    {
      cells := [];
      var i := 0;
      while i < |videoPaths|
        invariant 0 <= i <= |videoPaths|
        invariant |cells| == i
        invariant forall k :: 0 <= k < i ==> cells[k] == Cell(k)
        invariant videoPaths == old(videoPaths) && removedSignals == old(removedSignals)
      {
        var row, col := i / Columns, i % Columns;
        cells := cells + [(row, col)];
        i := i + 1;
      }
    }

    /** A path not yet shown joins the end of the grid; a repeated one changes nothing. */
    method AddVideo(path: string)
      requires Valid()
      modifies this
      ensures Valid()
      ensures removedSignals == old(removedSignals)
      ensures |cells| == |videoPaths| && forall i :: 0 <= i < |videoPaths| ==> cells[i] == Cell(i)
      ensures path !in old(videoPaths) ==> videoPaths == old(videoPaths) + [path]
      ensures path in old(videoPaths) ==> videoPaths == old(videoPaths) && cells == old(cells)
    {
      if path !in videoPaths {
        videoPaths := videoPaths + [path];
        UpdateGrid();
      }
    }

    /**
     * The Remove button: nothing happens unless the user confirms; then the
     * file is deleted and, if that succeeds and the path is listed, it leaves
     * the list, the grid is laid out again and video_removed is emitted. A
     * failed deletion, or a path no longer listed (list.remove raises), leaves
     * the list as it was.
     */
    method RemoveVideo(path: string, confirmed: bool, deleted: bool)
      requires Valid()
      modifies this
      ensures Valid()
      ensures |cells| == |videoPaths| && forall i :: 0 <= i < |videoPaths| ==> cells[i] == Cell(i)
      ensures confirmed && deleted && path in old(videoPaths) ==>
        && videoPaths == RemoveFirst(old(videoPaths), path)
        && removedSignals == old(removedSignals) + [path]
      ensures !(confirmed && deleted && path in old(videoPaths)) ==>
        videoPaths == old(videoPaths) && cells == old(cells) && removedSignals == old(removedSignals)
    {
      if confirmed && deleted && path in videoPaths {
        RemoveFirstUnique(videoPaths, path);
        videoPaths := RemoveFirst(videoPaths, path);
        UpdateGrid();
        removedSignals := removedSignals + [path];
      }
    }
  }
}
