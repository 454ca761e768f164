/**
 * The replicated document of the cash book (the records of types.ts) and the
 * pure logic App.tsx applies to it: the totals reduction and the state
 * updaters the editor passes to its single-writer guard.
 *
 * Amounts are modelled as unbounded integers.
 */
module Ledger {
  import opened Wrappers

  datatype PaymentMethod = CASH | CARD | PAYPAL

  datatype OutPartyEntry = OutPartyEntry(id: string, index: int, payMethod: PaymentMethod, amount: int)

  datatype MainEntry = MainEntry(
    id: string, roomNo: string, description: string,
    payMethod: PaymentMethod, cashIn: int, cashOut: int)

  /** The open ledger of one day. */
  datatype CashBook = CashBook(
    date: string, outPartyEntries: seq<OutPartyEntry>,
    mainEntries: seq<MainEntry>, openingBalance: int)

  /** A closed day: a copy of its ledger and the balance it ended with. */
  datatype DailyArchive = DailyArchive(date: string, data: CashBook, finalBalance: int)

  datatype Rates = Rates(usd: int, euro: int)

  /** The whole document one device holds and replicates. */
  datatype DeviceState = DeviceState(currentData: CashBook, history: seq<DailyArchive>, rates: Rates)

  datatype Totals = Totals(
    outPartyCash: int, outPartyCard: int, outPartyPaypal: int,
    totalCard: int, totalPaypal: int,
    mainCashIn: int, mainCashOut: int, finalBalance: int)

  /** A `Partial<MainSectionEntry>`: each present field overrides the entry's. */
  datatype MainPatch = MainPatch(
    id: Option<string>, roomNo: Option<string>, description: Option<string>,
    payMethod: Option<PaymentMethod>, cashIn: Option<int>, cashOut: Option<int>)

  // ---------------------------------------------------------------------------
  // Sums. Each is the source's `filter(...).reduce((sum, e) => sum + ..., 0)`,
  // a left fold, written by recursion on the last element.

  /** Sum of the amounts of the out-party entries paid by `m`. */
  function OutPartyAmountBy(es: seq<OutPartyEntry>, m: PaymentMethod): int {
    if es == [] then 0
    else OutPartyAmountBy(es[..|es| - 1], m) + (if es[|es| - 1].payMethod == m then es[|es| - 1].amount else 0)
  }

  /** Sum of all out-party amounts, whatever the method. */
  function OutPartyAmount(es: seq<OutPartyEntry>): int {
    if es == [] then 0 else OutPartyAmount(es[..|es| - 1]) + es[|es| - 1].amount
  }

  /** Sum of `cashIn` over the main entries paid by `m`. */
  function MainCashInBy(es: seq<MainEntry>, m: PaymentMethod): int {
    if es == [] then 0
    else MainCashInBy(es[..|es| - 1], m) + (if es[|es| - 1].payMethod == m then es[|es| - 1].cashIn else 0)
  }

  /** Sum of `cashIn` over all main entries. */
  function MainCashIn(es: seq<MainEntry>): int {
    if es == [] then 0 else MainCashIn(es[..|es| - 1]) + es[|es| - 1].cashIn
  }

  /** Sum of `cashOut` over all main entries. */
  function MainCashOut(es: seq<MainEntry>): int {
    if es == [] then 0 else MainCashOut(es[..|es| - 1]) + es[|es| - 1].cashOut
  }

  /** The three per-method out-party sums add up to the sum of all out-party amounts. */
  lemma {:induction false} OutPartySplit(es: seq<OutPartyEntry>)
    ensures OutPartyAmountBy(es, CASH) + OutPartyAmountBy(es, CARD) + OutPartyAmountBy(es, PAYPAL)
            == OutPartyAmount(es)
  {
    if es != [] {
      OutPartySplit(es[..|es| - 1]);
    }
  }

  // ---------------------------------------------------------------------------
  // calculateTotals

  /**
   * The totals shown on the dashboard and archived at day-end. Cash in is
   * the opening balance plus every main cash-in plus every out-party amount;
   * cash out is every main cash-out plus every CARD and PAYPAL amount; the
   * final balance is their difference. Since every out-party amount is
   * counted in and every non-cash amount out again, the final balance equals
   * the opening balance plus the main entries' net cash plus the out-party
   * CASH amounts, minus what main entries took by CARD or PAYPAL.
   */
  function CalculateTotals(data: CashBook): (t: Totals)
    ensures t.outPartyCash == OutPartyAmountBy(data.outPartyEntries, CASH)
    ensures t.outPartyCard == OutPartyAmountBy(data.outPartyEntries, CARD)
    ensures t.outPartyPaypal == OutPartyAmountBy(data.outPartyEntries, PAYPAL)
    ensures t.totalCard == t.outPartyCard + MainCashInBy(data.mainEntries, CARD)
    ensures t.totalPaypal == t.outPartyPaypal + MainCashInBy(data.mainEntries, PAYPAL)
    ensures t.mainCashIn
            == MainCashIn(data.mainEntries) + OutPartyAmount(data.outPartyEntries) + data.openingBalance
    ensures t.mainCashOut == MainCashOut(data.mainEntries) + t.totalCard + t.totalPaypal
    ensures t.finalBalance == t.mainCashIn - t.mainCashOut
    ensures t.finalBalance
            == data.openingBalance + MainCashIn(data.mainEntries) - MainCashOut(data.mainEntries)
               + OutPartyAmountBy(data.outPartyEntries, CASH)
               - MainCashInBy(data.mainEntries, CARD) - MainCashInBy(data.mainEntries, PAYPAL)
  {
    var ops := data.outPartyEntries;
    var mes := data.mainEntries;
    var outPartyCash := OutPartyAmountBy(ops, CASH);
    var outPartyCard := OutPartyAmountBy(ops, CARD);
    var outPartyPaypal := OutPartyAmountBy(ops, PAYPAL);
    var totalCard := outPartyCard + MainCashInBy(mes, CARD);
    var totalPaypal := outPartyPaypal + MainCashInBy(mes, PAYPAL);
    var outPartyTotal := outPartyCash + outPartyCard + outPartyPaypal;
    var mainCashIn := MainCashIn(mes) + outPartyTotal + data.openingBalance;
    var mainCashOut := MainCashOut(mes) + (totalCard + totalPaypal);
    OutPartySplit(ops);
    Totals(outPartyCash, outPartyCard, outPartyPaypal, totalCard, totalPaypal,
           mainCashIn, mainCashOut, mainCashIn - mainCashOut)
  }

  /** A ledger without entries closes at its opening balance. */
  lemma EmptyBookKeepsOpeningBalance(date: string, opening: int)
    ensures CalculateTotals(CashBook(date, [], [], opening))
            == Totals(0, 0, 0, 0, 0, opening, 0, opening)
  {
  }

  // ---------------------------------------------------------------------------
  // The updaters of App.tsx. Each builds the next document from the previous one.

  /** The entry ids of a list, in order. */
  function OutPartyIds(es: seq<OutPartyEntry>): (ids: seq<string>)
    ensures |ids| == |es| && forall i :: 0 <= i < |es| ==> ids[i] == es[i].id
  {
    seq(|es|, i requires 0 <= i < |es| => es[i].id)
  }

  function MainIds(es: seq<MainEntry>): (ids: seq<string>)
    ensures |ids| == |es| && forall i :: 0 <= i < |es| ==> ids[i] == es[i].id
  {
    seq(|es|, i requires 0 <= i < |es| => es[i].id)
  }

  /** No id occurs twice. */
  predicate Distinct(ids: seq<string>) {
    forall i, j :: 0 <= i < j < |ids| ==> ids[i] != ids[j]
  }

  /** The document invariant: entry ids are unique within each list. */
  predicate UniqueEntryIds(book: CashBook) {
    Distinct(OutPartyIds(book.outPartyEntries)) && Distinct(MainIds(book.mainEntries))
  }

  /**
   * handleAddOutParty's updater: one new CASH entry of amount 0, numbered one
   * past the current count, at the end of the out-party list; nothing else changes.
   */
  function AddOutParty(prev: DeviceState, id: string): (next: DeviceState)
    ensures next.history == prev.history && next.rates == prev.rates
    ensures next.currentData.date == prev.currentData.date
    ensures next.currentData.mainEntries == prev.currentData.mainEntries
    ensures next.currentData.openingBalance == prev.currentData.openingBalance
    ensures var old_ := prev.currentData.outPartyEntries; var new_ := next.currentData.outPartyEntries;
            && |new_| == |old_| + 1
            && new_[..|old_|] == old_
            && new_[|old_|] == OutPartyEntry(id, |old_| + 1, CASH, 0)
  {
    var es := prev.currentData.outPartyEntries;
    prev.(currentData := prev.currentData.(
      outPartyEntries := es + [OutPartyEntry(id, |es| + 1, CASH, 0)]))
  }

  /** handleAddMainEntry's updater: one blank CASH entry at the end of the main list. */
  function AddMainEntry(prev: DeviceState, id: string): (next: DeviceState)
    ensures next.history == prev.history && next.rates == prev.rates
    ensures next.currentData.date == prev.currentData.date
    ensures next.currentData.outPartyEntries == prev.currentData.outPartyEntries
    ensures next.currentData.openingBalance == prev.currentData.openingBalance
    ensures var old_ := prev.currentData.mainEntries; var new_ := next.currentData.mainEntries;
            && |new_| == |old_| + 1
            && new_[..|old_|] == old_
            && new_[|old_|] == MainEntry(id, "", "", CASH, 0, 0)
  {
    var es := prev.currentData.mainEntries;
    prev.(currentData := prev.currentData.(
      mainEntries := es + [MainEntry(id, "", "", CASH, 0, 0)]))
  }

  /**
   * The `map` of handleUpdateOutParty: same length and order; an entry whose
   * id matches gets the new amount and method, every other entry is kept.
   */
  function UpdateOutPartyEntries(es: seq<OutPartyEntry>, id: string, amount: int, payMethod: PaymentMethod)
    : (r: seq<OutPartyEntry>)
    ensures |r| == |es|
    ensures forall i :: 0 <= i < |es| && es[i].id != id ==> r[i] == es[i]
    ensures forall i :: 0 <= i < |es| && es[i].id == id ==>
              r[i] == OutPartyEntry(id, es[i].index, payMethod, amount)
  {
    if es == [] then []
    else
      var e := es[|es| - 1];
      UpdateOutPartyEntries(es[..|es| - 1], id, amount, payMethod)
        + [if e.id == id then e.(amount := amount, payMethod := payMethod) else e]
  }

  /** handleUpdateOutParty's updater: only the out-party list changes. */
  function UpdateOutParty(prev: DeviceState, id: string, amount: int, payMethod: PaymentMethod)
    : (next: DeviceState)
    ensures next.history == prev.history && next.rates == prev.rates
    ensures next.currentData.date == prev.currentData.date
    ensures next.currentData.mainEntries == prev.currentData.mainEntries
    ensures next.currentData.openingBalance == prev.currentData.openingBalance
    ensures next.currentData.outPartyEntries
            == UpdateOutPartyEntries(prev.currentData.outPartyEntries, id, amount, payMethod)
    ensures OutPartyIds(next.currentData.outPartyEntries) == OutPartyIds(prev.currentData.outPartyEntries)
  {
    var r := UpdateOutPartyEntries(prev.currentData.outPartyEntries, id, amount, payMethod);
    prev.(currentData := prev.currentData.(outPartyEntries := r))
  }

  /** `{ ...e, ...updates }`: a field present in the patch wins. */
  function ApplyPatch(e: MainEntry, p: MainPatch): (r: MainEntry)
    ensures r.id == (if p.id.Some? then p.id.value else e.id)
    ensures r.roomNo == (if p.roomNo.Some? then p.roomNo.value else e.roomNo)
    ensures r.description == (if p.description.Some? then p.description.value else e.description)
    ensures r.payMethod == (if p.payMethod.Some? then p.payMethod.value else e.payMethod)
    ensures r.cashIn == (if p.cashIn.Some? then p.cashIn.value else e.cashIn)
    ensures r.cashOut == (if p.cashOut.Some? then p.cashOut.value else e.cashOut)
    ensures p == MainPatch(None, None, None, None, None, None) ==> r == e
  {
    MainEntry(
      if p.id.Some? then p.id.value else e.id,
      if p.roomNo.Some? then p.roomNo.value else e.roomNo,
      if p.description.Some? then p.description.value else e.description,
      if p.payMethod.Some? then p.payMethod.value else e.payMethod,
      if p.cashIn.Some? then p.cashIn.value else e.cashIn,
      if p.cashOut.Some? then p.cashOut.value else e.cashOut)
  }

  /** The `map` of handleUpdateMainEntry: same length and order; only matching entries are patched. */
  function UpdateMainEntries(es: seq<MainEntry>, id: string, p: MainPatch): (r: seq<MainEntry>)
    ensures |r| == |es|
    ensures forall i :: 0 <= i < |es| && es[i].id != id ==> r[i] == es[i]
    ensures forall i :: 0 <= i < |es| && es[i].id == id ==> r[i] == ApplyPatch(es[i], p)
  {
    if es == [] then []
    else
      var e := es[|es| - 1];
      UpdateMainEntries(es[..|es| - 1], id, p) + [if e.id == id then ApplyPatch(e, p) else e]
  }

  /** handleUpdateMainEntry's updater: only the main list changes. */
  function UpdateMainEntry(prev: DeviceState, id: string, p: MainPatch): (next: DeviceState)
    ensures next.history == prev.history && next.rates == prev.rates
    ensures next.currentData.date == prev.currentData.date
    ensures next.currentData.outPartyEntries == prev.currentData.outPartyEntries
    ensures next.currentData.openingBalance == prev.currentData.openingBalance
    ensures next.currentData.mainEntries == UpdateMainEntries(prev.currentData.mainEntries, id, p)
    ensures p.id.None? ==> MainIds(next.currentData.mainEntries) == MainIds(prev.currentData.mainEntries)
  {
    prev.(currentData := prev.currentData.(
      mainEntries := UpdateMainEntries(prev.currentData.mainEntries, id, p)))
  }

  /**
   * handleDayEnd's updater: the current ledger is archived at the front of
   * the history with `finalBalance`, and a new empty ledger dated `today`
   * opens at that balance; the rates are kept.
   */
  function DayEnd(prev: DeviceState, finalBalance: int, today: string): (next: DeviceState)
    ensures |next.history| == |prev.history| + 1
    ensures next.history[0] == DailyArchive(prev.currentData.date, prev.currentData, finalBalance)
    ensures next.history[1..] == prev.history
    ensures next.currentData == CashBook(today, [], [], finalBalance)
    ensures next.rates == prev.rates
  {
    var archive := DailyArchive(prev.currentData.date, prev.currentData, finalBalance);
    DeviceState(CashBook(today, [], [], finalBalance), [archive] + prev.history, prev.rates)
  }

  /** The rates merge of getRates: `{ ...prev, rates }`. */
  function MergeRates(prev: DeviceState, rates: Rates): (next: DeviceState)
    ensures next.rates == rates
    ensures next.currentData == prev.currentData && next.history == prev.history
  {
    prev.(rates := rates)
  }

  /** The document loadLocalState starts from when nothing is stored. */
  function DefaultState(today: string): (s: DeviceState)
    ensures s.currentData == CashBook(today, [], [], 0)
    ensures s.history == [] && s.rates == Rates(0, 0)
  {
    DeviceState(CashBook(today, [], [], 0), [], Rates(0, 0))
  }

  // ---------------------------------------------------------------------------
  // What the updaters preserve.

  /** A new out-party entry has amount 0, so it leaves every total as it was. */
  lemma AddOutPartyKeepsTotals(prev: DeviceState, id: string)
    ensures CalculateTotals(AddOutParty(prev, id).currentData) == CalculateTotals(prev.currentData)
  {
  }

  /** A new main entry has zero cash in and out, so it leaves every total as it was. */
  lemma AddMainEntryKeepsTotals(prev: DeviceState, id: string)
    ensures CalculateTotals(AddMainEntry(prev, id).currentData) == CalculateTotals(prev.currentData)
  {
  }

  /** Adding an out-party entry under an unused id keeps entry ids unique. */
  lemma AddOutPartyKeepsIdsUnique(prev: DeviceState, id: string)
    requires UniqueEntryIds(prev.currentData)
    requires id !in OutPartyIds(prev.currentData.outPartyEntries)
    ensures UniqueEntryIds(AddOutParty(prev, id).currentData)
  {
  }

  /** Adding a main entry under an unused id keeps entry ids unique. */
  lemma AddMainEntryKeepsIdsUnique(prev: DeviceState, id: string)
    requires UniqueEntryIds(prev.currentData)
    requires id !in MainIds(prev.currentData.mainEntries)
    ensures UniqueEntryIds(AddMainEntry(prev, id).currentData)
  {
  }

  /**
   * With unique ids, updating the out-party entry at position `k` rewrites
   * that one entry (keeping its id and index) and nothing else.
   */
  lemma UpdateOutPartyTouchesOne(es: seq<OutPartyEntry>, k: nat, amount: int, payMethod: PaymentMethod)
    requires Distinct(OutPartyIds(es)) && k < |es|
    ensures UpdateOutPartyEntries(es, es[k].id, amount, payMethod)
            == es[k := OutPartyEntry(es[k].id, es[k].index, payMethod, amount)]
  {
  }

  /** An update naming an id no entry has changes nothing. */
  lemma UpdateOutPartyUnknownIdIsNoOp(prev: DeviceState, id: string, amount: int, payMethod: PaymentMethod)
    requires id !in OutPartyIds(prev.currentData.outPartyEntries)
    ensures UpdateOutParty(prev, id, amount, payMethod) == prev
  {
  }

  /**
   * With unique ids, patching the main entry at position `k` rewrites that
   * one entry and nothing else; a patch without an `id` field keeps ids unique.
   */
  lemma UpdateMainEntryTouchesOne(prev: DeviceState, k: nat, p: MainPatch)
    requires UniqueEntryIds(prev.currentData) && k < |prev.currentData.mainEntries|
    requires p.id.None?
    ensures var es := prev.currentData.mainEntries;
            var next := UpdateMainEntry(prev, es[k].id, p);
            && next.currentData.mainEntries == es[k := ApplyPatch(es[k], p)]
            && UniqueEntryIds(next.currentData)
  {
  }

  // ---------------------------------------------------------------------------
  // History: archives chain from one day to the next.

  /**
   * Every archive's balance is the final balance of its own ledger, each day
   * opens at the balance the previous (next older) day closed with, and the
   * open ledger starts at the newest archive's balance.
   */
  ghost predicate ConsistentHistory(s: DeviceState) {
    var h := s.history;
    && (forall i :: 0 <= i < |h| ==>
          h[i].date == h[i].data.date && h[i].finalBalance == CalculateTotals(h[i].data).finalBalance)
    && (forall i :: 0 <= i < |h| - 1 ==> h[i].data.openingBalance == h[i + 1].finalBalance)
    && (|h| > 0 ==> s.currentData.openingBalance == h[0].finalBalance)
  }

  /**
   * Day-end with the balance of the ledger being closed keeps the history
   * consistent, and the new day closes, while empty, at that same balance.
   */
  lemma DayEndKeepsHistoryConsistent(prev: DeviceState, today: string)
    requires ConsistentHistory(prev)
    ensures var next := DayEnd(prev, CalculateTotals(prev.currentData).finalBalance, today);
            && ConsistentHistory(next)
            && CalculateTotals(next.currentData).finalBalance == CalculateTotals(prev.currentData).finalBalance
  {
  }

  /** Entry edits and the rates merge leave the history and the opening balance alone. */
  lemma EditsKeepHistoryConsistent(
    prev: DeviceState, id: string, amount: int, payMethod: PaymentMethod, p: MainPatch, rates: Rates)
    requires ConsistentHistory(prev)
    ensures ConsistentHistory(AddOutParty(prev, id))
    ensures ConsistentHistory(UpdateOutParty(prev, id, amount, payMethod))
    ensures ConsistentHistory(AddMainEntry(prev, id))
    ensures ConsistentHistory(UpdateMainEntry(prev, id, p))
    ensures ConsistentHistory(MergeRates(prev, rates))
  {
  }

  /**
   * From an empty document, adding an out-party entry and setting it to 500
   * CASH, then adding a main entry and setting its cash in to 1000, yields a
   * ledger holding exactly those two entries.
   */
  lemma OneOfEachDocument(today: string, outId: string, mainId: string)
    ensures var s1 := AddOutParty(DefaultState(today), outId);
            var s2 := UpdateOutParty(s1, outId, 500, CASH);
            var s3 := AddMainEntry(s2, mainId);
            var s4 := UpdateMainEntry(s3, mainId, MainPatch(None, None, None, None, Some(1000), None));
            s4.currentData == CashBook(today, [OutPartyEntry(outId, 1, CASH, 500)],
                                       [MainEntry(mainId, "", "", CASH, 1000, 0)], 0)
  {
  }

  /**
   * The worked example: that ledger (opening balance 0, out-party 500 CASH,
   * main cash in 1000) gives out-party cash 500, cash in 1500, cash out 0
   * and a final balance of 1500.
   */
  lemma OneOfEachScenario(today: string, outId: string, mainId: string)
    ensures var book := CashBook(today, [OutPartyEntry(outId, 1, CASH, 500)],
                                 [MainEntry(mainId, "", "", CASH, 1000, 0)], 0);
            var t := CalculateTotals(book);
            && t.outPartyCash == 500 && t.mainCashIn == 1500 && t.mainCashOut == 0
            && t.finalBalance == 1500
  {
    var ops := [OutPartyEntry(outId, 1, CASH, 500)];
    var mes := [MainEntry(mainId, "", "", CASH, 1000, 0)];
    assert ops[..0] == [] && mes[..0] == [];
    assert OutPartyAmountBy(ops, CASH) == 500 && OutPartyAmountBy(ops, CARD) == 0;
    assert MainCashInBy(mes[..0], CARD) == 0 && MainCashInBy(mes[..0], PAYPAL) == 0;
    assert OutPartyAmountBy(ops, PAYPAL) == 0;
    assert MainCashInBy(mes, CARD) == 0 && MainCashInBy(mes, PAYPAL) == 0;
    assert MainCashIn(mes) == 1000 && MainCashOut(mes) == 0;
    var t := CalculateTotals(CashBook(today, ops, mes, 0));
    assert t.mainCashIn == 1500 && t.mainCashOut == 0;
  }
}
