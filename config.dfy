/**
 * The configuration of the panel and the geometry resolver: each panel variant has a
 * fixed grid, and the nested `first..fourth` x `one..eight` button configuration is
 * flattened, row-major, into one optional button configuration per key.
 */
module Config {
  import opened Wrappers
  import opened Paths

  /** The settings of one button (the kebab-case keys of the configuration file). */
  datatype ButtonConfig = ButtonConfig(
    text: Option<string>,
    textSize: Option<real>,
    image: Option<Path>,
    sound: Option<Path>,
    repeat: bool,
    topic: Option<string>,
    payload: Option<string>,
    playlist: Option<Path>)

  /** The configuration of an inert key: nothing to show, play or publish. */
  const EmptyConfig := ButtonConfig(None, None, None, None, false, None, None, None)

  /** One row of the configuration, with up to eight named slots. */
  datatype Row = Row(
    one: Option<ButtonConfig>, two: Option<ButtonConfig>, three: Option<ButtonConfig>, four: Option<ButtonConfig>,
    five: Option<ButtonConfig>, six: Option<ButtonConfig>, seven: Option<ButtonConfig>, eight: Option<ButtonConfig>)
  {
    /** The slots in their left-to-right order. */
    function Slots(): (s: seq<Option<ButtonConfig>>)
      ensures |s| == 8
      ensures s[0] == one && s[1] == two && s[2] == three && s[3] == four
      ensures s[4] == five && s[5] == six && s[6] == seven && s[7] == eight
    {
      [one, two, three, four, five, six, seven, eight]
    }

    /** The first `limit` slots of the row (`Row::list`). */
    function List(limit: nat): (r: seq<Option<ButtonConfig>>)
      ensures |r| == if limit <= 8 then limit else 8
      ensures forall c :: 0 <= c < |r| ==> r[c] == Slots()[c]
    {
      Take(Slots(), limit)
    }
  }

  /** The supported panel variants. */
  datatype Device = Original | OriginalV2 | Mk2 | Mini | RevisedMini | XL {

    /** Number of key rows of the variant; never more than the four rows a configuration can name. */
    function Rows(): (r: nat)
      ensures 2 <= r <= 4
      ensures r == 3 <==> (this == Original || this == OriginalV2 || this == Mk2)
      ensures r == 2 <==> (this == Mini || this == RevisedMini)
      ensures r == 4 <==> this == XL
    {
      match this
      case Mk2 | Original | OriginalV2 => 3
      case RevisedMini | Mini => 2
      case XL => 4
    }

    /** Number of keys per row; never more than the eight slots a configuration row can name. */
    function Columns(): (c: nat)
      ensures 3 <= c <= 8
      ensures c == 5 <==> (this == Original || this == OriginalV2 || this == Mk2)
      ensures c == 3 <==> (this == Mini || this == RevisedMini)
      ensures c == 8 <==> this == XL
    {
      match this
      case Mk2 | Original | OriginalV2 => 5
      case RevisedMini | Mini => 3
      case XL => 8
    }
  }

  /** Slot `c` of an optional row: an absent row has nothing in any slot. */
  function SlotOf(row: Option<Row>, c: nat): Option<ButtonConfig>
    requires c < 8
  {
    match row
    case Some(r) => r.Slots()[c]
    case None => None
  }

  /** The entries one row contributes: its first `cols` slots, or `cols` empty entries when the row is absent. */
  function RowEntries(row: Option<Row>, cols: nat): (r: seq<Option<ButtonConfig>>)
    requires cols <= 8
    ensures |r| == cols
    ensures forall c :: 0 <= c < cols ==> r[c] == SlotOf(row, c)
  {
    match row
    case Some(r) => r.List(cols)
    case None => seq(cols, _ => None)
  }

  /** The row entries of `rows`, one row after the other (the `flat_map` of `Buttons::list`). */
  function FlattenRows(rows: seq<Option<Row>>, cols: nat): seq<Option<ButtonConfig>>
    requires cols <= 8
  {
    if rows == [] then [] else RowEntries(rows[0], cols) + FlattenRows(rows[1..], cols)
  }

  /** Flattening is row-major: entry `i * cols + c` is slot `c` of row `i`. */
  lemma {:induction false} FlattenRowsAt(rows: seq<Option<Row>>, cols: nat)
    requires cols <= 8
    ensures |FlattenRows(rows, cols)| == |rows| * cols
    ensures forall i, c :: 0 <= i < |rows| && 0 <= c < cols ==>
              FlattenRows(rows, cols)[i * cols + c] == SlotOf(rows[i], c)
  {
    if rows != [] {
      var tail := FlattenRows(rows[1..], cols);
      FlattenRowsAt(rows[1..], cols);
      assert |rows| * cols == cols + (|rows| - 1) * cols;
      forall i, c | 0 <= i < |rows| && 0 <= c < cols
        ensures FlattenRows(rows, cols)[i * cols + c] == SlotOf(rows[i], c)
      {
        if i > 0 {
          assert i * cols + c == cols + ((i - 1) * cols + c);
          assert (i - 1) * cols + c < |tail|;
          assert rows[1..][i - 1] == rows[i];
        }
      }
    }
  }

  /** The button section of the configuration: four optional named rows. */
  datatype Buttons = Buttons(first: Option<Row>, second: Option<Row>, third: Option<Row>, fourth: Option<Row>) {

    function RowList(): (rs: seq<Option<Row>>)
      ensures |rs| == 4
      ensures rs[0] == first && rs[1] == second && rs[2] == third && rs[3] == fourth
    {
      [first, second, third, fourth]
    }

    /**
     * `Buttons::list`: one entry per key of `device`, row-major, top-left first. Rows and
     * slots beyond the variant's grid are dropped; an absent row gives a row of empty entries.
     */
    function List(device: Device): (r: seq<Option<ButtonConfig>>)
      ensures |r| == device.Rows() * device.Columns()
      ensures forall i, c :: 0 <= i < device.Rows() && 0 <= c < device.Columns() ==>
                r[i * device.Columns() + c] == SlotOf(RowList()[i], c)
    {
      var rows := Take(RowList(), device.Rows());
      FlattenRowsAt(rows, device.Columns());
      FlattenRows(rows, device.Columns())
    }
  }

  /** The list is indexed `0 .. rows * columns - 1`, and every index is some (row, column) pair. */
  lemma {:induction false} ListIndexIsRowMajor(b: Buttons, device: Device, k: nat)
    requires k < device.Rows() * device.Columns()
    ensures k / device.Columns() < device.Rows() && k % device.Columns() < device.Columns()
    ensures b.List(device)[k] == SlotOf(b.RowList()[k / device.Columns()], k % device.Columns())
  {
    var cols := device.Columns();
    var i, c := k / cols, k % cols;
    assert k == i * cols + c;
  }
}
