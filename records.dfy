/** The records that the pages exchange with the store: the season roster
    (`farmers_table`) and the collection history (`sales_table`). */
module Records {
  import opened Common

  /** The rate per kilogram used when a farmer's rate is absent or zero. */
  const DefaultRate: real := 31.5

  /** One row of `farmers_table`, as the upload page builds it. */
  datatype Farmer = Farmer(
    couponNo: string,
    division: string,
    section: string,
    ryotNumber: string,
    ryotName: string,
    fatherName: string,
    village: string,
    caneWt: Num,
    sugarRate: Num,
    eligibleQty: Num,
    amount: Num)

  datatype PaymentMode = Cash | Qr

  /** One row of `sales_table` as the collection page inserts it. */
  datatype SaleRecord = SaleRecord(
    division: string,
    section: string,
    couponNo: string,
    ryotNumber: string,
    ryotName: string,
    fatherName: string,
    village: string,
    caneWt: Num,
    sugarQty: Num,
    sugarRate: Num,
    amount: Num,
    paymentMode: PaymentMode,
    collectedBy: string)

  /** A persisted sale: the inserted record plus the `sale_date` the store
      stamps on it, in milliseconds of local time. */
  datatype StoredSale = StoredSale(record: SaleRecord, saleDate: int)

  /** The signed-in operator of an authentication session. */
  datatype Operator = Operator(email: string)

  /** `amount || 0`, `sugar_qty || 0` and `cane_wt || 0` of a sale record. */
  function RecordAmount(r: SaleRecord): real {
    OrElse(r.amount, 0.0)
  }

  function RecordQty(r: SaleRecord): real {
    OrElse(r.sugarQty, 0.0)
  }

  function RecordCane(r: SaleRecord): real {
    OrElse(r.caneWt, 0.0)
  }

  /** Ryot numbers are pairwise distinct. */
  predicate UniqueRyots(roster: seq<Farmer>) {
    forall a, b :: 0 <= a < b < |roster| ==> roster[a].ryotNumber != roster[b].ryotNumber
  }

  /** The `data` of a `.maybeSingle()` query whose error is not looked at:
      the row when exactly one matches, otherwise nothing. */
  function MaybeSingle<T>(rows: seq<T>): (r: Option<T>)
    ensures r.Some? <==> |rows| == 1
    ensures r.Some? ==> r.value == rows[0]
  {
    if |rows| == 1 then Some(rows[0]) else None
  }
}
