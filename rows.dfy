/** Turning the rows returned by the CSV parser into product records: the loop in the
    parser's `complete` callback of `fetchSpreadsheetData`. Rows are positional: row 0
    is the header, and columns 1, 2, 5, 6 and 7 hold name, discount, valid-until date,
    EAN and image URL. */
module Rows {
  import opened Products

  /** A row is looked at only when it has more than six fields. */
  predicate IsComplete(row: seq<string>) {
    |row| > 6
  }

  /** The record built from a complete row; a missing column 7 gives an empty image. */
  function RowProduct(row: seq<string>): Product
    requires IsComplete(row)
  {
    Product(row[1], row[2], row[5], row[6], if |row| > 7 then row[7] else "")
  }

  /** A row yields a product when it is complete and its record has name, discount
      and EAN. */
  predicate Keeps(row: seq<string>) {
    IsComplete(row) && HasEssentials(RowProduct(row))
  }

  /** The products obtained from rows 1 .. n-1, in row order. */
  function MapRowsBelow(rows: seq<seq<string>>, n: nat): (products: seq<Product>)
    requires n <= |rows|
    ensures n <= 1 ==> products == []
    ensures n >= 1 ==> |products| <= n - 1
    ensures forall k :: 0 <= k < |products| ==> HasEssentials(products[k])
    decreases n
  {
    if n <= 1 then []
    else
      var row := rows[n - 1];
      MapRowsBelow(rows, n - 1) + (if Keeps(row) then [RowProduct(row)] else [])
  }

  /** The products the `complete` callback collects from all parsed rows. */
  function MapRows(rows: seq<seq<string>>): seq<Product> {
    MapRowsBelow(rows, |rows|)
  }

  /** Reference definition: the indices, in increasing order, of the rows among
      1 .. n-1 that yield a product. */
  ghost function KeptRowsBelow(rows: seq<seq<string>>, n: nat): (idx: seq<nat>)
    requires n <= |rows|
    ensures forall k :: 0 <= k < |idx| ==> 1 <= idx[k] < n && Keeps(rows[idx[k]])
    ensures forall k, l :: 0 <= k < l < |idx| ==> idx[k] < idx[l]
    ensures forall j :: 1 <= j < n && Keeps(rows[j]) ==> j in idx
    decreases n
  {
    if n <= 1 then []
    else KeptRowsBelow(rows, n - 1) + (if Keeps(rows[n - 1]) then [n - 1] else [])
  }

  /** The k-th product is the record of the k-th kept row: products come exactly from
      the kept rows, each once, in row order. */
  lemma {:induction false} MapRowsBelowFollowsKeptRows(rows: seq<seq<string>>, n: nat)
    requires n <= |rows|
    ensures |MapRowsBelow(rows, n)| == |KeptRowsBelow(rows, n)|
    ensures forall k :: 0 <= k < |KeptRowsBelow(rows, n)| ==>
      MapRowsBelow(rows, n)[k] == RowProduct(rows[KeptRowsBelow(rows, n)[k]])
    decreases n
  {
    if n > 1 {
      MapRowsBelowFollowsKeptRows(rows, n - 1);
    }
  }

  /** `p` carries the columns of `row`: 1 as name, 2 as discount, 5 as valid-until
      date, 6 as EAN and 7, when present, as image (else the empty string). */
  predicate CarriesColumns(p: Product, row: seq<string>)
    requires IsComplete(row)
  {
    p.name == row[1] && p.discount == row[2] && p.validUntil == row[5] &&
    p.eanCode == row[6] && p.image == (if |row| > 7 then row[7] else "")
  }

  /** Row 0 never yields a product; every product comes from a complete row at index
      1 or more and carries that row's columns; the output is never longer than the
      input without its header. */
  lemma MapRowsProvenance(rows: seq<seq<string>>)
    ensures |rows| >= 1 ==> |MapRows(rows)| <= |rows| - 1
    ensures forall p :: p in MapRows(rows) ==>
      exists j :: 1 <= j < |rows| && IsComplete(rows[j]) && CarriesColumns(p, rows[j])
  {
    MapRowsBelowFollowsKeptRows(rows, |rows|);
    var idx := KeptRowsBelow(rows, |rows|);
    forall p | p in MapRows(rows)
      ensures exists j :: 1 <= j < |rows| && IsComplete(rows[j]) && CarriesColumns(p, rows[j])
    {
      var k :| 0 <= k < |MapRows(rows)| && MapRows(rows)[k] == p;
      var j := idx[k];
      assert CarriesColumns(p, rows[j]);
    }
  }

  /** A complete row at index 1 or more yields a product if and only if its name,
      discount and EAN columns are all non-empty. */
  lemma MapRowsKeepsExactly(rows: seq<seq<string>>, j: nat)
    requires 1 <= j < |rows| && IsComplete(rows[j])
    ensures RowProduct(rows[j]) in MapRows(rows) <==>
      (rows[j][1] != "" && rows[j][2] != "" && rows[j][6] != "")
  {
    MapRowsBelowFollowsKeptRows(rows, |rows|);
    var idx := KeptRowsBelow(rows, |rows|);
    if Keeps(rows[j]) {
      var k :| 0 <= k < |idx| && idx[k] == j;
      assert MapRows(rows)[k] == RowProduct(rows[j]);
    }
  }

  /** Kept rows keep their relative order: the products of two kept rows j1 < j2
      appear at positions k1 < k2. */
  lemma MapRowsPreservesOrder(rows: seq<seq<string>>, j1: nat, j2: nat)
    requires 1 <= j1 < j2 < |rows| && Keeps(rows[j1]) && Keeps(rows[j2])
    ensures exists k1, k2 ::
              0 <= k1 < k2 < |MapRows(rows)| &&
              MapRows(rows)[k1] == RowProduct(rows[j1]) && MapRows(rows)[k2] == RowProduct(rows[j2])
  {
    MapRowsBelowFollowsKeptRows(rows, |rows|);
    var idx := KeptRowsBelow(rows, |rows|);
    var k1 :| 0 <= k1 < |idx| && idx[k1] == j1;
    var k2 :| 0 <= k2 < |idx| && idx[k2] == j2;
    assert MapRows(rows)[k1] == RowProduct(rows[j1]) && MapRows(rows)[k2] == RowProduct(rows[j2]);
  }

  /** The row-mapping loop of the `complete` callback, pushing each kept record onto
      `productData`. */
  method CollectProducts(rows: seq<seq<string>>) returns (productData: seq<Product>)
    ensures productData == MapRows(rows)
  {
    productData := [];
    var i := 1;
    while i < |rows|
      invariant 1 <= i
      invariant |rows| > 0 ==> i <= |rows| && productData == MapRowsBelow(rows, i)
      invariant |rows| == 0 ==> productData == []
    {
      var row := rows[i];
      if |row| > 6 {
        var product := RowProduct(row);
        if product.name != "" && product.discount != "" && product.eanCode != "" {
          productData := productData + [product];
        }
      }
      i := i + 1;
    }
  }

  /** A header and one full data row yield exactly that row's product. */
  lemma SingleRowExample()
    ensures MapRows([["h1", "h2", "h3", "h4", "h5", "h6", "h7", "h8"],
                     ["", "Nutella", "-2.50", "", "", "2024-02-15", "8000500037508", "http://img"]])
      == [Product("Nutella", "-2.50", "2024-02-15", "8000500037508", "http://img")]
  {
  }
}
