/** components/InvoiceTemplate.tsx: the printable invoice. Five line items are
    offered in a fixed order; a line is rendered only when its amount is
    positive, and the total is always rendered. */
module InvoiceTemplate {
  import opened Wrappers
  import opened Sequences

  /** One rendered line: its label, its amount and the amount as displayed. */
  datatype Row = Row(caption: string, value: int, text: string)

  /** The template's numeric props (`formatCurrency` is passed separately). */
  datatype Props = Props(rent: int, managementFee: int, waterBill: int,
                         electricityBill: int, parkingFee: int, total: int)

  datatype Invoice = Invoice(rows: seq<Row>, totalText: string)

  /** The five calls of `renderInvoiceRow`, in the order the template makes them. */
  function LineItems(p: Props): seq<(string, int)>
  {
    [("Rent for 2 months", p.rent),
     ("Management Fee", p.managementFee),
     ("Water Bill", p.waterBill),
     ("Electricity Bill", p.electricityBill),
     ("Parking Fee", p.parkingFee)]
  }

  /** `renderInvoiceRow`: `null` for an amount of zero or less, otherwise a row
      carrying its own caption and its own formatted amount. */
  function RenderInvoiceRow(caption: string, value: int, format: int -> string): (row: Option<Row>)
    ensures row.Some? <==> value > 0
    ensures row.Some? ==> row.value.caption == caption && row.value.value == value
                          && row.value.text == format(value)
  {
    if value <= 0 then None else Some(Row(caption, value, format(value)))
  }

  /** Every item rendered as a row, whatever its amount: the reference sequence
      the shown rows are selected from. */
  function AllRows(items: seq<(string, int)>, format: int -> string): (rows: seq<Row>)
    ensures |rows| == |items|
    ensures forall i :: 0 <= i < |items| ==>
              rows[i] == Row(items[i].0, items[i].1, format(items[i].1))
  {
    if items == [] then []
    else [Row(items[0].0, items[0].1, format(items[0].1))] + AllRows(items[1..], format)
  }

  function RowAmounts(rows: seq<Row>): seq<int>
  {
    if rows == [] then [] else [rows[0].value] + RowAmounts(rows[1..])
  }

  function ItemAmounts(items: seq<(string, int)>): seq<int>
  {
    if items == [] then [] else [items[0].1] + ItemAmounts(items[1..])
  }

  /** The rows actually in the document: the rendered items with `null`s
      dropped. They are exactly the positive items, in their original order. */
  function ShownRows(items: seq<(string, int)>, format: int -> string): (rows: seq<Row>)
    ensures |rows| <= |items|
    ensures IsSubsequence(rows, AllRows(items, format))
    ensures forall row :: row in rows <==> row in AllRows(items, format) && row.value > 0
  {
    if items == [] then []
    else
      var rest := ShownRows(items[1..], format);
      var all := AllRows(items, format);
      assert all[1..] == AllRows(items[1..], format);
      assert all == [all[0]] + all[1..];
      match RenderInvoiceRow(items[0].0, items[0].1, format)
      case Some(row) =>
        assert ([row] + rest)[1..] == rest;
        [row] + rest
      case None =>
        assert rest != [] ==> rest[0] in rest && rest[0] != all[0];
        rest
  }

  /** With no negative amounts, the hidden rows are exactly the zero ones, so
      the shown amounts add up to the sum of all five props. */
  lemma {:induction false} ShownRowsSum(items: seq<(string, int)>, format: int -> string)
    requires forall i :: 0 <= i < |items| ==> items[i].1 >= 0
    ensures Sum(RowAmounts(ShownRows(items, format))) == Sum(ItemAmounts(items))
  {
    if items != [] {
      ShownRowsSum(items[1..], format);
      var rest := ShownRows(items[1..], format);
      if items[0].1 > 0 {
        assert ShownRows(items, format) == [Row(items[0].0, items[0].1, format(items[0].1))] + rest;
        assert ([Row(items[0].0, items[0].1, format(items[0].1))] + rest)[1..] == rest;
      }
    }
  }

  lemma LineItemAmounts(p: Props)
    ensures ItemAmounts(LineItems(p)) == [p.rent, p.managementFee, p.waterBill, p.electricityBill, p.parkingFee]
  {
    var items := LineItems(p);
    assert ItemAmounts(items[4..]) == [p.parkingFee] by {
      assert items[4..][1..] == [];
    }
    assert ItemAmounts(items[3..]) == [p.electricityBill, p.parkingFee] by {
      assert items[3..][1..] == items[4..];
    }
    assert ItemAmounts(items[2..]) == [p.waterBill, p.electricityBill, p.parkingFee] by {
      assert items[2..][1..] == items[3..];
    }
    assert ItemAmounts(items[1..]) == [p.managementFee, p.waterBill, p.electricityBill, p.parkingFee] by {
      assert items[1..][1..] == items[2..];
    }
  }

  /** With no negative props, the amounts of the shown rows add up to the five props. */
  lemma RenderedRowsSum(p: Props, format: int -> string)
    requires p.rent >= 0 && p.managementFee >= 0 && p.waterBill >= 0
    requires p.electricityBill >= 0 && p.parkingFee >= 0
    ensures Sum(RowAmounts(Render(p, format).rows))
            == Sum([p.rent, p.managementFee, p.waterBill, p.electricityBill, p.parkingFee])
  {
    var items := LineItems(p);
    assert forall i :: 0 <= i < |items| ==> items[i].1 >= 0 by {
      assert items[0].1 == p.rent && items[1].1 == p.managementFee && items[2].1 == p.waterBill;
      assert items[3].1 == p.electricityBill && items[4].1 == p.parkingFee;
    }
    ShownRowsSum(items, format);
    LineItemAmounts(p);
  }

  /** The whole invoice: the selected rows and the always-present total. */
  function Render(p: Props, format: int -> string): (inv: Invoice)
    ensures inv.totalText == format(p.total)
    ensures |inv.rows| <= 5
    ensures IsSubsequence(inv.rows, AllRows(LineItems(p), format))
    ensures forall i :: 0 <= i < 5 ==>
              (AllRows(LineItems(p), format)[i] in inv.rows <==> LineItems(p)[i].1 > 0)
  {
    Invoice(ShownRows(LineItems(p), format), format(p.total))
  }
}
