/** The collection page: an operator stages farmers by coupon or ryot number,
    then confirms payment, which records one sale per newly staged farmer. */
module CollectSugar {
  import opened Common
  import opened Records

  // =====================================================================
  // Error messages
  // =====================================================================

  const UnexpectedError: string := "Unexpected error."
  const PermissionDenied: string := "Permission denied. Check RLS policies."
  const NotAuthenticated: string := "Not authenticated"

  /** `formatSupabaseError`: a missing or empty message becomes a generic
      text, a message mentioning permission (in any letter case) becomes the
      row-level-security hint, any other message is shown as it is. The
      result is never empty. */
  function FormatSupabaseError(message: Option<string>): (r: string)
    ensures r != ""
    ensures message.None? || message.value == "" ==> r == UnexpectedError
    ensures message.Some? && message.value != "" && !Contains(Lower(message.value), "permission") ==> r == message.value
    ensures message.Some? && message.value != "" && Contains(Lower(message.value), "permission") ==> r == PermissionDenied
  {
    if message.None? || message.value == "" then UnexpectedError
    else if Contains(Lower(message.value), "permission") then PermissionDenied
    else message.value
  }

  /** The hint itself mentions permission, so it is shown for a non-empty
      message exactly when that message mentions permission. */
  lemma PermissionHintIff(m: string)
    requires m != ""
    ensures FormatSupabaseError(Some(m)) == PermissionDenied <==> Contains(Lower(m), "permission")
  {
    var lowered := Lower(PermissionDenied);
    assert forall k :: 0 <= k < 10 ==> lowered[k] == "permission"[k];
    assert lowered[..10] == "permission";
  }

  /** The sign-in failure reaches the operator under its own words. */
  lemma NotAuthenticatedShownAsIs()
    ensures FormatSupabaseError(Some(NotAuthenticated)) == NotAuthenticated
  {
    if Contains(Lower(NotAuthenticated), "permission") {
      ContainsNeedsFirstChar(Lower(NotAuthenticated), "permission");
      assert false;
    }
  }

  // =====================================================================
  // Staged entries
  // =====================================================================

  datatype Status = New | AlreadyCollected

  /** One row of the page's staging list. */
  datatype Entry = Entry(
    division: string,
    section: string,
    couponNo: string,
    ryotNo: string,
    name: string,
    fatherName: string,
    village: string,
    caneWt: Num,
    eligibleQty: real,
    sugarRate: real,
    amount: real,
    status: Status)

  predicate IsNew(e: Entry) {
    e.status == New
  }

  /** `entries.some((e) => e.ryotNo === key || e.couponNo === key)`: exact,
      case-sensitive comparison. */
  predicate Staged(entries: seq<Entry>, key: string) {
    exists i :: 0 <= i < |entries| && (entries[i].ryotNo == key || entries[i].couponNo == key)
  }

  // =====================================================================
  // Answers of the record store
  // =====================================================================

  predicate MatchesKey(f: Farmer, key: string) {
    f.ryotNumber == key || f.couponNo == key
  }

  /** The farmer lookup: the roster rows whose ryot number or coupon number
      is the key, read with `maybeSingle()`, so a farmer comes back only when
      the call succeeds and exactly one row matches. */
  function FindFarmer(roster: seq<Farmer>, key: string, fails: bool): (r: Option<Farmer>)
    ensures r.Some? ==> r.value in roster && MatchesKey(r.value, key)
    ensures r.Some? ==> !fails
  {
    if fails then None else MaybeSingle(Filter(roster, f => MatchesKey(f, key)))
  }

  /** A key that one roster row alone matches finds that row. */
  lemma LookupFindsSoleMatch(roster: seq<Farmer>, key: string, j: nat)
    requires j < |roster| && MatchesKey(roster[j], key)
    requires forall i :: 0 <= i < |roster| && i != j ==> !MatchesKey(roster[i], key)
    ensures FindFarmer(roster, key, false) == Some(roster[j])
  {
    FilterOnly(roster, f => MatchesKey(f, key), j);
  }

  /** A key that two roster rows match (say one by ryot number and another by
      coupon number) finds nothing. */
  lemma AmbiguousKeyNotFound(roster: seq<Farmer>, key: string, fails: bool, i: nat, j: nat)
    requires i < j < |roster| && MatchesKey(roster[i], key) && MatchesKey(roster[j], key)
    ensures FindFarmer(roster, key, fails) == None
  {
    FilterKeepsTwo(roster, f => MatchesKey(f, key), i, j);
  }

  /** The sale check: the sales of the ryot, read with `maybeSingle()`. */
  function SaleFor(sales: seq<StoredSale>, ryot: string, fails: bool): (r: Option<StoredSale>)
    ensures r.Some? ==> r.value in sales && r.value.record.ryotNumber == ryot
    ensures r.Some? ==> !fails
  {
    if fails then None else MaybeSingle(Filter(sales, (s: StoredSale) => s.record.ryotNumber == ryot))
  }

  /** The only sale of a ryot is found. */
  lemma SoleSaleFound(sales: seq<StoredSale>, ryot: string, j: nat)
    requires j < |sales| && sales[j].record.ryotNumber == ryot
    requires forall i :: 0 <= i < |sales| && i != j ==> sales[i].record.ryotNumber != ryot
    ensures SaleFor(sales, ryot, false) == Some(sales[j])
  {
    FilterOnly(sales, (s: StoredSale) => s.record.ryotNumber == ryot, j);
  }

  /** A ryot with two recorded sales reads as not yet collected. */
  lemma RepeatSaleReadsAsNew(sales: seq<StoredSale>, ryot: string, fails: bool, i: nat, j: nat)
    requires i < j < |sales| && sales[i].record.ryotNumber == ryot && sales[j].record.ryotNumber == ryot
    ensures SaleFor(sales, ryot, fails) == None
  {
    FilterKeepsTwo(sales, (s: StoredSale) => s.record.ryotNumber == ryot, i, j);
  }

  /** The entry staged for a farmer: the quantity defaults to 0 and the rate
      to the default rate when absent or zero, and the amount is their
      product rounded to two decimals. */
  function MakeEntry(f: Farmer, sold: bool): Entry {
    var qty := OrElse(f.eligibleQty, 0.0);
    var rate := OrElse(f.sugarRate, DefaultRate);
    Entry(
      division := f.division,
      section := f.section,
      couponNo := f.couponNo,
      ryotNo := f.ryotNumber,
      name := f.ryotName,
      fatherName := f.fatherName,
      village := f.village,
      caneWt := f.caneWt,
      eligibleQty := qty,
      sugarRate := rate,
      amount := Round2(qty * rate),
      status := if sold then AlreadyCollected else New)
  }

  /** What a staged entry holds: the farmer's identity, a quantity and a rate
      that are the stored ones unless those are absent or zero, a rate that
      is never zero, and an amount within half a paisa of quantity times
      rate and a whole number of paise. */
  lemma EntryValues(f: Farmer, sold: bool)
    ensures var e := MakeEntry(f, sold);
      && e.ryotNo == f.ryotNumber && e.couponNo == f.couponNo && e.caneWt == f.caneWt
      && (f.eligibleQty.Val? && f.eligibleQty.v != 0.0 ==> e.eligibleQty == f.eligibleQty.v)
      && (f.eligibleQty.Null? || f.eligibleQty.v == 0.0 ==> e.eligibleQty == 0.0)
      && (f.sugarRate.Val? && f.sugarRate.v != 0.0 ==> e.sugarRate == f.sugarRate.v)
      && (f.sugarRate.Null? || f.sugarRate.v == 0.0 ==> e.sugarRate == DefaultRate)
      && e.sugarRate != 0.0
      && IsCents(e.amount) && -0.005 <= e.amount - e.eligibleQty * e.sugarRate <= 0.005
      && (e.status == AlreadyCollected <==> sold)
  {
  }

  // =====================================================================
  // Confirming payment
  // =====================================================================

  /** The entries still to be paid, in list order. */
  function NewEntries(entries: seq<Entry>): (r: seq<Entry>)
    ensures forall i :: 0 <= i < |r| ==> r[i] in entries && r[i].status == New
    ensures forall i :: 0 <= i < |entries| && entries[i].status == New ==> entries[i] in r
  {
    Filter(entries, IsNew)
  }

  /** `filter` keeps list order and multiplicity: the entries still to be paid
      in a longer list are those of the shorter list, followed by the new
      entry when it is NEW, and an empty list has none. */
  lemma NewEntriesAppend(entries: seq<Entry>, e: Entry)
    ensures NewEntries([]) == []
    ensures NewEntries(entries + [e]) == NewEntries(entries) + (if IsNew(e) then [e] else [])
  {
    FilterAppend(entries, [e], IsNew);
    assert [e][1..] == [];
  }

  /** The sale record sent for one entry. */
  function ToRecord(e: Entry, mode: PaymentMode, email: string): SaleRecord {
    SaleRecord(
      division := e.division,
      section := e.section,
      couponNo := e.couponNo,
      ryotNumber := e.ryotNo,
      ryotName := e.name,
      fatherName := e.fatherName,
      village := e.village,
      caneWt := e.caneWt,
      sugarQty := Val(e.eligibleQty),
      sugarRate := Val(e.sugarRate),
      amount := Val(e.amount),
      paymentMode := mode,
      collectedBy := email)
  }

  /** One record per entry, in order, all with the same payment mode and
      the same operator. */
  function BuildRecords(pending: seq<Entry>, mode: PaymentMode, email: string): (rs: seq<SaleRecord>)
    ensures |rs| == |pending|
    ensures forall i :: 0 <= i < |rs| ==> rs[i].paymentMode == mode && rs[i].collectedBy == email
    ensures forall i :: 0 <= i < |rs| ==>
      rs[i].ryotNumber == pending[i].ryotNo && rs[i].couponNo == pending[i].couponNo &&
      rs[i].sugarQty == Val(pending[i].eligibleQty) && rs[i].amount == Val(pending[i].amount)
  {
    seq(|pending|, i requires 0 <= i < |pending| => ToRecord(pending[i], mode, email))
  }

  function Collected(e: Entry): Entry {
    if e.status == New then e.(status := AlreadyCollected) else e
  }

  /** The list after a recorded payment: every entry is collected, and
      nothing else about any entry changes. */
  function MarkCollected(entries: seq<Entry>): (r: seq<Entry>)
    ensures |r| == |entries|
    ensures forall i :: 0 <= i < |r| ==> r[i].status == AlreadyCollected
    ensures forall i :: 0 <= i < |r| ==> r[i].(status := entries[i].status) == entries[i]
    ensures forall i :: 0 <= i < |r| && entries[i].status == AlreadyCollected ==> r[i] == entries[i]
  {
    seq(|entries|, i requires 0 <= i < |entries| => Collected(entries[i]))
  }

  // =====================================================================
  // Totals
  // =====================================================================

  function QtyOf(e: Entry): real {
    e.eligibleQty
  }

  function AmountOf(e: Entry): real {
    e.amount
  }

  /** `totalSugar`: the quantity over the entries still to be paid. */
  function TotalSugar(entries: seq<Entry>): real {
    Sum(NewEntries(entries), QtyOf)
  }

  /** `totalAmount`: the amount over the entries still to be paid. */
  function TotalAmount(entries: seq<Entry>): real {
    Sum(NewEntries(entries), AmountOf)
  }

  /** After a recorded payment nothing is left to pay. */
  lemma TotalsClearedByConfirm(entries: seq<Entry>)
    ensures NewEntries(MarkCollected(entries)) == []
    ensures TotalSugar(MarkCollected(entries)) == 0.0 && TotalAmount(MarkCollected(entries)) == 0.0
  {
    var marked := MarkCollected(entries);
    FilterNone(marked, IsNew);
  }

  /** Staging one more entry adds its quantity and amount to the totals when
      it is new, and leaves them alone otherwise. */
  lemma TotalsAfterAppend(entries: seq<Entry>, e: Entry)
    ensures TotalSugar(entries + [e]) == TotalSugar(entries) + (if e.status == New then e.eligibleQty else 0.0)
    ensures TotalAmount(entries + [e]) == TotalAmount(entries) + (if e.status == New then e.amount else 0.0)
  {
    FilterAppend(entries, [e], IsNew);
    var tail := Filter([e], IsNew);
    assert [e][1..] == [];
    assert tail == (if e.status == New then [e] else []);
    SumAppend(NewEntries(entries), tail, QtyOf);
    SumAppend(NewEntries(entries), tail, AmountOf);
  }

  /** The records sent carry, in sum, exactly the quantity and amount the
      page showed as its totals. */
  lemma {:induction false} RecordsCarryTotals(pending: seq<Entry>, mode: PaymentMode, email: string)
    ensures Sum(BuildRecords(pending, mode, email), RecordQty) == Sum(pending, QtyOf)
    ensures Sum(BuildRecords(pending, mode, email), RecordAmount) == Sum(pending, AmountOf)
  {
    if pending != [] {
      var rs := BuildRecords(pending, mode, email);
      assert rs[1..] == BuildRecords(pending[1..], mode, email);
      RecordsCarryTotals(pending[1..], mode, email);
    }
  }

  /** Confirming sends the totals shown on the page. */
  lemma ConfirmSendsTotals(entries: seq<Entry>, mode: PaymentMode, email: string)
    ensures Sum(BuildRecords(NewEntries(entries), mode, email), RecordQty) == TotalSugar(entries)
    ensures Sum(BuildRecords(NewEntries(entries), mode, email), RecordAmount) == TotalAmount(entries)
  {
    RecordsCarryTotals(NewEntries(entries), mode, email);
  }

  // =====================================================================
  // The staging list keeps one entry per ryot
  // =====================================================================

  /** Entry `e` is the one staged for roster farmer `f`. */
  predicate EntryOf(e: Entry, f: Farmer) {
    e.ryotNo == f.ryotNumber && e.couponNo == f.couponNo
  }

  /** The entry carries the numbers of some roster farmer. */
  predicate OnRoster(e: Entry, roster: seq<Farmer>) {
    exists j :: 0 <= j < |roster| && EntryOf(e, roster[j])
  }

  predicate FromRoster(entries: seq<Entry>, roster: seq<Farmer>) {
    forall i :: 0 <= i < |entries| ==> OnRoster(entries[i], roster)
  }

  predicate DistinctRyots(entries: seq<Entry>) {
    forall a, b :: 0 <= a < b < |entries| ==> entries[a].ryotNo != entries[b].ryotNo
  }

  /** The staging list holds entries of roster farmers, one per ryot. */
  predicate Consistent(entries: seq<Entry>, roster: seq<Farmer>) {
    DistinctRyots(entries) && FromRoster(entries, roster)
  }

  /** With ryot numbers unique in the roster, a farmer the lookup finds for a
      key that passed the duplicate check has no entry staged yet. */
  lemma FoundFarmerNotStaged(entries: seq<Entry>, roster: seq<Farmer>, key: string, fails: bool)
    requires UniqueRyots(roster) && FromRoster(entries, roster)
    requires !Staged(entries, key) && FindFarmer(roster, key, fails).Some?
    ensures forall i :: 0 <= i < |entries| ==> entries[i].ryotNo != FindFarmer(roster, key, fails).value.ryotNumber
  {
    var f := FindFarmer(roster, key, fails).value;
    forall i | 0 <= i < |entries| ensures entries[i].ryotNo != f.ryotNumber {
      var j :| 0 <= j < |roster| && EntryOf(entries[i], roster[j]);
      var k :| 0 <= k < |roster| && roster[k] == f;
      assert !(entries[i].ryotNo == key || entries[i].couponNo == key);
    }
  }

  /** Staging the farmer found keeps the list consistent. */
  lemma AddKeepsConsistent(entries: seq<Entry>, roster: seq<Farmer>, key: string, fails: bool, sold: bool)
    requires UniqueRyots(roster) && Consistent(entries, roster)
    requires !Staged(entries, key) && FindFarmer(roster, key, fails).Some?
    ensures Consistent(entries + [MakeEntry(FindFarmer(roster, key, fails).value, sold)], roster)
  {
    var f := FindFarmer(roster, key, fails).value;
    var e := MakeEntry(f, sold);
    var es := entries + [e];
    FoundFarmerNotStaged(entries, roster, key, fails);
    forall i | 0 <= i < |es| ensures OnRoster(es[i], roster) {
      if i < |entries| {
        assert es[i] == entries[i];
      } else {
        var k :| 0 <= k < |roster| && roster[k] == f;
        assert EntryOf(es[i], roster[k]);
      }
    }
    forall a, b | 0 <= a < b < |es| ensures es[a].ryotNo != es[b].ryotNo {
      assert es[a] == entries[a];
      if b < |entries| { assert es[b] == entries[b]; }
    }
  }

  /** Two lists with the same ryot and coupon number at every position. */
  predicate SameIdentities(a: seq<Entry>, b: seq<Entry>) {
    |a| == |b| && forall i :: 0 <= i < |a| ==> a[i].ryotNo == b[i].ryotNo && a[i].couponNo == b[i].couponNo
  }

  /** Consistency depends only on the ryot and coupon numbers of the entries. */
  lemma ConsistentBySameIdentities(a: seq<Entry>, b: seq<Entry>, roster: seq<Farmer>)
    requires SameIdentities(a, b) && Consistent(a, roster)
    ensures Consistent(b, roster)
  {
    forall i | 0 <= i < |b| ensures OnRoster(b[i], roster) {
      assert OnRoster(a[i], roster);
      var j :| 0 <= j < |roster| && EntryOf(a[i], roster[j]);
      assert EntryOf(b[i], roster[j]);
    }
    forall x, y | 0 <= x < y < |b| ensures b[x].ryotNo != b[y].ryotNo {
      assert a[x].ryotNo != a[y].ryotNo;
    }
  }

  /** Recording a payment keeps the list consistent. */
  lemma ConfirmKeepsConsistent(entries: seq<Entry>, roster: seq<Farmer>)
    requires Consistent(entries, roster)
    ensures Consistent(MarkCollected(entries), roster)
  {
    var marked := MarkCollected(entries);
    forall i | 0 <= i < |entries| ensures entries[i].ryotNo == marked[i].ryotNo && entries[i].couponNo == marked[i].couponNo {
      assert marked[i].(status := entries[i].status) == entries[i];
    }
    ConsistentBySameIdentities(entries, marked, roster);
  }

  // =====================================================================
  // The page
  // =====================================================================

  datatype AddOutcome = Ignored | AddFailed(message: string) | DuplicateEntry | FarmerNotFound | Added

  datatype ConfirmOutcome = NothingToConfirm | ConfirmFailed(message: string) | PaymentRecorded

  /** The state of one collection page: the search box, the staging list
      and the chosen payment mode. */
  class CollectSession {
    var searchValue: string
    var entries: seq<Entry>
    var paymentMethod: PaymentMode

    constructor()
      ensures searchValue == "" && entries == [] && paymentMethod == Cash
    {
      searchValue := "";
      entries := [];
      paymentMethod := Cash;
    }

    method Type(value: string)
      modifies this`searchValue
      ensures searchValue == value
    {
      searchValue := value;
    }

    method ChoosePayment(mode: PaymentMode)
      modifies this`paymentMethod
      ensures paymentMethod == mode
    {
      paymentMethod := mode;
    }

    /** `handleAdd`, given the session, the roster and the sales the store
        holds, and whether each of the two queries fails. */
    method Add(session: Option<Operator>, roster: seq<Farmer>, lookupFails: bool,
               sales: seq<StoredSale>, saleCheckFails: bool) returns (r: AddOutcome)
      modifies this`entries, this`searchValue
      ensures Trim(old(searchValue)) == "" ==> r == Ignored
      ensures Trim(old(searchValue)) != "" && session.None? ==>
        r == AddFailed(FormatSupabaseError(Some(NotAuthenticated)))
      ensures Trim(old(searchValue)) != "" && session.Some? && Staged(old(entries), Trim(old(searchValue))) ==>
        r == DuplicateEntry
      ensures Trim(old(searchValue)) != "" && session.Some? && !Staged(old(entries), Trim(old(searchValue))) ==>
        r == (if FindFarmer(roster, Trim(old(searchValue)), lookupFails).None? then FarmerNotFound else Added)
      ensures r != Added ==> entries == old(entries) && searchValue == old(searchValue)
      ensures r == Added ==> searchValue == ""
      ensures r == Added ==> entries == old(entries) + [MakeEntry(FindFarmer(roster, Trim(old(searchValue)), lookupFails).value,
        SaleFor(sales, FindFarmer(roster, Trim(old(searchValue)), lookupFails).value.ryotNumber, saleCheckFails).Some?)]
      ensures UniqueRyots(roster) && old(Consistent(entries, roster)) ==> Consistent(entries, roster)
    {
      var lookup := Trim(searchValue);
      if lookup == "" {
        return Ignored;
      }
      if session.None? {
        return AddFailed(FormatSupabaseError(Some(NotAuthenticated)));
      }
      if Staged(entries, lookup) {
        return DuplicateEntry;
      }
      var farmer := FindFarmer(roster, lookup, lookupFails);
      if farmer.None? {
        return FarmerNotFound;
      }
      var sold := SaleFor(sales, farmer.value.ryotNumber, saleCheckFails);
      var entry := MakeEntry(farmer.value, sold.Some?);
      ghost var kept := UniqueRyots(roster) && Consistent(entries, roster);
      if kept {
        AddKeepsConsistent(entries, roster, lookup, lookupFails, sold.Some?);
      }
      assert kept ==> Consistent(entries + [entry], roster);
      entries := entries + [entry];
      searchValue := "";
      assert entries == old(entries) + [MakeEntry(farmer.value, sold.Some?)];
      return Added;
    }

    /** `handleConfirm`, given the session and the store's reply to the
        insert; `sent` is what was handed to the insert call. */
    method Confirm(session: Option<Operator>, reply: StoreReply) returns (r: ConfirmOutcome, sent: seq<SaleRecord>)
      modifies this`entries
      ensures NewEntries(old(entries)) == [] ==> r == NothingToConfirm && sent == []
      ensures NewEntries(old(entries)) != [] && session.None? ==>
        r == ConfirmFailed(FormatSupabaseError(Some(NotAuthenticated))) && sent == []
      ensures NewEntries(old(entries)) != [] && session.Some? ==>
        sent == BuildRecords(NewEntries(old(entries)), paymentMethod, session.value.email) &&
        r == (if reply.Done? then PaymentRecorded else ConfirmFailed(FormatSupabaseError(reply.message)))
      ensures r == PaymentRecorded ==> entries == MarkCollected(old(entries))
      ensures r != PaymentRecorded ==> entries == old(entries)
    {
      var pending := NewEntries(entries);
      if |pending| == 0 {
        return NothingToConfirm, [];
      }
      if session.None? {
        return ConfirmFailed(FormatSupabaseError(Some(NotAuthenticated))), [];
      }
      sent := BuildRecords(pending, paymentMethod, session.value.email);
      if reply.Fault? {
        return ConfirmFailed(FormatSupabaseError(reply.message)), sent;
      }
      entries := MarkCollected(entries);
      r := PaymentRecorded;
    }
  }
}
