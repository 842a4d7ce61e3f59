/**
 * The sales spreadsheet as pandas holds it: a header row and, per data row, one cell per
 * column. A column is found by name at its first position.
 */
module Frames {
  import opened Wrappers

  /** A cell: empty (NaN), text as read with `dtype=str`, or a number after `to_numeric`. */
  datatype Cell = Blank | Text(s: string) | Num(x: real)

  datatype Frame = Frame(columns: seq<string>, rows: seq<seq<Cell>>)

  predicate WellFormed(f: Frame) {
    forall i :: 0 <= i < |f.rows| ==> |f.rows[i]| == |f.columns|
  }

  /** The frame as the spreadsheet reader returns it: only text and empty cells. */
  predicate RawFrame(f: Frame) {
    && WellFormed(f)
    && forall i, j :: 0 <= i < |f.rows| && 0 <= j < |f.rows[i]| ==> !f.rows[i][j].Num?
  }

  /** The position of the first occurrence of `name` (for a frame: the column pandas reads). */
  function IndexOf(columns: seq<string>, name: string): (r: Option<nat>)
    ensures r.None? <==> name !in columns
    ensures r.Some? ==> r.value < |columns| && columns[r.value] == name && name !in columns[..r.value]
  {
    if |columns| == 0 then None
    else if columns[0] == name then Some(0)
    else match IndexOf(columns[1..], name)
      case None => None
      case Some(j) =>
        assert columns[..j + 1] == [columns[0]] + columns[1..][..j];
        Some(j + 1)
  }

  /** Appending a column leaves the position of every other name as it was. */
  lemma {:induction false} IndexOfAppend(columns: seq<string>, name: string, n: string)
    requires name !in columns && n != name
    ensures IndexOf(columns + [name], n) == IndexOf(columns, n)
  {
    if |columns| > 0 && columns[0] != n {
      assert (columns + [name])[1..] == columns[1..] + [name];
      IndexOfAppend(columns[1..], name, n);
    }
  }

  /** `row.get(name)`: the cell of row `i` under `name`, None when there is no such column. */
  function Get(f: Frame, i: nat, name: string): Option<Cell>
    requires WellFormed(f) && i < |f.rows|
  {
    match IndexOf(f.columns, name)
    case None => None
    case Some(j) => Some(f.rows[i][j])
  }

  /**
   * `df[name] = values`: overwrites the column in place when it exists, else appends it.
   * No other column changes.
   */
  method SetColumn(f: Frame, name: string, values: seq<Cell>) returns (g: Frame)
    requires WellFormed(f) && |values| == |f.rows|
    ensures WellFormed(g) && |g.rows| == |f.rows|
    ensures name in g.columns
    ensures forall i :: 0 <= i < |g.rows| ==> Get(g, i, name) == Some(values[i])
    ensures forall i, n {:trigger Get(g, i, n)} :: 0 <= i < |g.rows| && n != name ==> Get(g, i, n) == Get(f, i, n)
  {
    var pos := IndexOf(f.columns, name);
    if pos.Some? {
      var j := pos.value;
      g := Frame(f.columns, seq(|f.rows|, i requires 0 <= i < |f.rows| => f.rows[i][j := values[i]]));
    } else {
      g := Frame(f.columns + [name], seq(|f.rows|, i requires 0 <= i < |f.rows| => f.rows[i] + [values[i]]));
      forall n | n != name ensures IndexOf(g.columns, n) == IndexOf(f.columns, n) {
        IndexOfAppend(f.columns, name, n);
      }
    }
  }

  /** Deleting the name at position `j` shifts the later positions down by one. */
  lemma {:induction false} IndexOfRemove(columns: seq<string>, j: nat, n: string)
    requires j < |columns| && columns[j] != n
    ensures var r := IndexOf(columns[..j] + columns[j + 1..], n);
            var o := IndexOf(columns, n);
            && (r.None? <==> o.None?)
            && (o.Some? ==> r.value == if o.value < j then o.value else o.value - 1)
  {
    var rest := columns[..j] + columns[j + 1..];
    if j == 0 {
      assert rest == columns[1..];
    } else if columns[0] != n {
      assert rest == [columns[0]] + (columns[1..][..j - 1] + columns[1..][j..]);
      assert rest[1..] == columns[1..][..j - 1] + columns[1..][j..];
      IndexOfRemove(columns[1..], j - 1, n);
    }
  }

  /** `df.drop(columns=...)` of the column at position `j`. */
  function RemoveColumn(f: Frame, j: nat): (g: Frame)
    requires WellFormed(f) && j < |f.columns|
    ensures WellFormed(g) && |g.rows| == |f.rows|
    ensures g.columns == f.columns[..j] + f.columns[j + 1..]
    ensures forall i, n {:trigger Get(g, i, n)} :: 0 <= i < |g.rows| && n != f.columns[j] ==> Get(g, i, n) == Get(f, i, n)
  {
    var g := Frame(f.columns[..j] + f.columns[j + 1..],
                   seq(|f.rows|, i requires 0 <= i < |f.rows| => f.rows[i][..j] + f.rows[i][j + 1..]));
    assert WellFormed(g);
    forall i, n | 0 <= i < |g.rows| && n != f.columns[j] ensures Get(g, i, n) == Get(f, i, n) {
      CelulaAposRemover(f, j, g, i, n);
    }
    g
  }

  /** A cell of another column is found, one place earlier past `j`, in the row without column `j`. */
  lemma CelulaAposRemover(f: Frame, j: nat, g: Frame, i: nat, n: string)
    requires WellFormed(f) && j < |f.columns| && i < |f.rows| && n != f.columns[j]
    requires g.columns == f.columns[..j] + f.columns[j + 1..] && |g.rows| == |f.rows|
    requires g.rows[i] == f.rows[i][..j] + f.rows[i][j + 1..]
    requires WellFormed(g)
    ensures Get(g, i, n) == Get(f, i, n)
  {
    IndexOfRemove(f.columns, j, n);
    var o := IndexOf(f.columns, n);
    if o.Some? {
      ElementoAposRemover(f.rows[i], j, o.value);
    }
  }

  /** Element `o` of a sequence sits at `o`, or at `o - 1` past `j`, once element `j` is deleted. */
  lemma ElementoAposRemover<T>(r: seq<T>, j: nat, o: nat)
    requires j < |r| && o < |r| && o != j
    ensures var p := if o < j then o else o - 1;
            p < |r| - 1 && (r[..j] + r[j + 1..])[p] == r[o]
  {
  }

  /** A sequence mapped element by element. */
  function Mapear<A, B>(xs: seq<A>, g: A -> B): (ys: seq<B>)
    ensures |ys| == |xs| && forall k :: 0 <= k < |xs| ==> ys[k] == g(xs[k])
  {
    seq(|xs|, k requires 0 <= k < |xs| => g(xs[k]))
  }

  /** Mapping commutes with deleting element `j`. */
  lemma MapearRemove<A, B>(xs: seq<A>, g: A -> B, j: nat)
    requires j < |xs|
    ensures Mapear(xs[..j] + xs[j + 1..], g) == Mapear(xs, g)[..j] + Mapear(xs, g)[j + 1..]
  {
    var ys := Mapear(xs, g);
    var zs := Mapear(xs[..j] + xs[j + 1..], g);
    forall k | 0 <= k < |zs| ensures zs[k] == (ys[..j] + ys[j + 1..])[k] {
      var o := if k < j then k else k + 1;
      ElementoAposRemover(xs, j, o);
      ElementoAposRemover(ys, j, o);
    }
  }

  /** Dropping a column of a frame as read keeps it a frame as read. */
  lemma RawRemoveColumn(f: Frame, j: nat)
    requires RawFrame(f) && j < |f.columns|
    ensures RawFrame(RemoveColumn(f, j))
  {
    var g := RemoveColumn(f, j);
    forall i, k | 0 <= i < |g.rows| && 0 <= k < |g.rows[i]| ensures !g.rows[i][k].Num? {
      if k >= j { assert g.rows[i][k] == f.rows[i][k + 1]; }
    }
  }
}
