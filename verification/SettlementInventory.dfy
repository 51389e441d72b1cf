/** What a settled bust leaves in the house inventory (recordBustInventory in crash-settlement.service.ts). */
module SettlementInventory {
  import opened Support
  import opened Treasury
  import opened Rounds
  import opened SettlementPlan
  import opened SettlementCustody
  import opened SettlementStore

  /** Operations per promised asset. */
  function Width(kind: SettlementKind, policy: SettlementPolicy): nat {
    if kind == Bust && policy.disposition == Sell then 4 else 3
  }

  lemma {:induction false} DraftAt(promises: seq<Promised>, kind: SettlementKind, policy: SettlementPolicy, player: Wallet, m: nat, c: nat)
    requires m < |promises| && c < Width(kind, policy)
    ensures |DraftsForPromises(promises, kind, policy, player)| == Width(kind, policy) * |promises|
    ensures Width(kind, policy) * m + c < Width(kind, policy) * |promises|
    ensures DraftsForPromises(promises, kind, policy, player)[Width(kind, policy) * m + c] == DraftsForPromise(promises[m], kind, policy, player)[c]
  {
    var init := promises[..|promises| - 1];
    var w := Width(kind, policy);
    DraftCount(init, kind, policy, player);
    DraftCount(promises, kind, policy, player);
    if m < |init| {
      DraftAt(init, kind, policy, player, m, c);
      assert w * |init| <= w * |promises|;
    } else {
      assert w * m + c - w * |init| == c;
    }
  }

  lemma {:induction false} DraftCount(promises: seq<Promised>, kind: SettlementKind, policy: SettlementPolicy, player: Wallet)
    ensures |DraftsForPromises(promises, kind, policy, player)| == Width(kind, policy) * |promises|
  {
    if promises != [] {
      DraftCount(promises[..|promises| - 1], kind, policy, player);
    }
  }

  /** The stored operations of a bust carry the planned drafts and numbers. */
  ghost predicate BustOperations(operations: seq<Operation>, promises: seq<Promised>, policy: SettlementPolicy, player: Wallet) {
    var drafts := DraftsForPromises(promises, Bust, policy, player);
    && |operations| == |drafts|
    && forall j :: 0 <= j < |drafts| ==>
         operations[j].planned.draft == drafts[j] && operations[j].planned.sequence == j + 1 && operations[j].finalizedAt.Some?
  }

  /** One inventory row per promised asset: sold exactly when the policy liquidates, held otherwise. */
  predicate RowFor(row: InventoryRow, p: Promised, policy: SettlementPolicy, bindings: Bindings) {
    && row.roundId == bindings.roundId && row.item == PromisedItem(p.asset) && row.custody == policy.inventoryCustody && row.value == p.amount
    && (if policy.disposition == Sell then row.realized == Some(p.amount) && row.disposedAt.Some? else row.realized.None? && row.disposedAt.None?)
  }

  predicate EntryFor(entry: ForfeitEntry, row: InventoryRow, p: Promised, bindings: Bindings) {
    entry == ForfeitEntry(row.operation, bindings.roundId, p.amount, Some(p.stage))
  }

  /** The rows and entries of the first `m` promises, in order, one each. */
  ghost predicate Recorded(inventory: Inventory, promises: seq<Promised>, m: nat, policy: SettlementPolicy, bindings: Bindings)
    requires m <= |promises|
  {
    && |inventory.rows| == |inventory.entries| == m
    && forall k :: 0 <= k < m ==>
         && RowFor(inventory.rows[k], promises[k], policy, bindings)
         && EntryFor(inventory.entries[k], inventory.rows[k], promises[k], bindings)
         && inventory.rows[k].operation == Width(Bust, policy) * k + 3
  }

  /** The transfer of promise `m`, and its liquidation when there is one. */
  lemma OwnOperations(operations: seq<Operation>, promises: seq<Promised>, policy: SettlementPolicy, player: Wallet, m: nat)
    requires BustOperations(operations, promises, policy, player) && m < |promises|
    ensures Width(Bust, policy) * m + Width(Bust, policy) <= |operations|
    ensures var op := operations[Width(Bust, policy) * m + 2];
            op.planned.draft == AssetDraft(promises[m], Transfer, policy.sessionCustody, policy.inventoryCustody)
            && op.planned.sequence == Width(Bust, policy) * m + 3
    ensures policy.disposition == Sell ==>
              operations[Width(Bust, policy) * m + 3].planned.draft == AssetDraft(promises[m], Liquidate, policy.inventoryCustody, policy.inventoryCustody)
  {
    DraftAt(promises, Bust, policy, player, m, 2);
    if policy.disposition == Sell {
      DraftAt(promises, Bust, policy, player, m, 3);
    }
  }

  /** The sale found for a promise's transfer is its own liquidation, if there is one. */
  lemma SaleOfTransfer(operations: seq<Operation>, promises: seq<Promised>, policy: SettlementPolicy, player: Wallet, m: nat, op: Operation)
    requires BustOperations(operations, promises, policy, player) && DistinctAssets(promises) && m < |promises|
    requires op.planned.draft == AssetDraft(promises[m], Transfer, policy.sessionCustody, policy.inventoryCustody)
    ensures var sale := FindSale(operations, op);
            && (sale.Some? <==> policy.disposition == Sell)
            && (sale.Some? ==> operations[sale.value].planned.draft.amount == promises[m].amount && operations[sale.value].finalizedAt.Some?)
  {
    var sale := FindSale(operations, op);
    OwnOperations(operations, promises, policy, player, m);
    if policy.disposition == Sell {
      assert SellsFor(operations[Width(Bust, policy) * m + 3], op);
    }
    if sale.Some? {
      SaleIsPlanned(promises, policy, player, sale.value);
      hide BustOperations, Width, DraftsForPromises;
      assert operations[sale.value].planned.draft == DraftsForPromises(promises, Bust, policy, player)[sale.value] by {
        DraftOfOperation(operations, promises, policy, player, sale.value);
      }
      SameAssetSamePromise(promises, sale.value / Width(Bust, policy), m);
    }
  }

  lemma DraftOfOperation(operations: seq<Operation>, promises: seq<Promised>, policy: SettlementPolicy, player: Wallet, n: nat)
    requires BustOperations(operations, promises, policy, player) && n < |operations|
    ensures n < |DraftsForPromises(promises, Bust, policy, player)|
    ensures operations[n].planned.draft == DraftsForPromises(promises, Bust, policy, player)[n] && operations[n].finalizedAt.Some?
  {
  }

  lemma SameAssetSamePromise(promises: seq<Promised>, a: nat, b: nat)
    requires DistinctAssets(promises) && a < |promises| && b < |promises|
    ensures promises[a].asset == promises[b].asset ==> a == b
  {
  }

  /** A liquidation in the plan is the fourth draft of some promise. */
  lemma SaleIsPlanned(promises: seq<Promised>, policy: SettlementPolicy, player: Wallet, n: nat)
    requires n < |DraftsForPromises(promises, Bust, policy, player)|
    requires DraftsForPromises(promises, Bust, policy, player)[n].kind == Liquidate
    ensures policy.disposition == Sell && n / Width(Bust, policy) < |promises|
    ensures DraftsForPromises(promises, Bust, policy, player)[n] == DraftsForPromise(promises[n / Width(Bust, policy)], Bust, policy, player)[3]
  {
    hide DraftsForPromises;
    var w := Width(Bust, policy);
    DraftCount(promises, Bust, policy, player);
    PlaceInWidth(n, w, |promises|);
    DraftAt(promises, Bust, policy, player, n / w, n % w);
  }

  lemma PlaceInWidth(n: nat, w: nat, count: nat)
    requires (w == 3 || w == 4) && n < w * count
    ensures n / w < count && n % w < w && n == w * (n / w) + n % w
  {
    if w == 3 {
      assert n < 3 * count;
    } else {
      assert n < 4 * count;
    }
  }

  lemma FreshOperation(inventory: Inventory, promises: seq<Promised>, m: nat, policy: SettlementPolicy, bindings: Bindings)
    requires m <= |promises| && Recorded(inventory, promises, m, policy, bindings)
    ensures FindInventory(inventory.rows, Width(Bust, policy) * m + 3).None?
  {
  }

  lemma RecordedAppend(before: Inventory, row: InventoryRow, entry: ForfeitEntry, promises: seq<Promised>, m: nat,
                       policy: SettlementPolicy, bindings: Bindings)
    requires m < |promises| && Recorded(before, promises, m, policy, bindings)
    requires RowFor(row, promises[m], policy, bindings) && EntryFor(entry, row, promises[m], bindings)
    requires row.operation == Width(Bust, policy) * m + 3
    ensures Recorded(Inventory(before.rows + [row], before.entries + [entry]), promises, m + 1, policy, bindings)
  {
    hide RowFor, EntryFor, Width;
  }

  /** Only the transfer of a promise is recorded, and it adds that promise's row and entry. */
  lemma RecordOnePromise(operations: seq<Operation>, promises: seq<Promised>, policy: SettlementPolicy, player: Wallet, bindings: Bindings,
                         before: Inventory, m: nat)
    requires BustOperations(operations, promises, policy, player) && DistinctAssets(promises) && m < |promises|
    requires bindings.inventoryCustody == policy.inventoryCustody
    requires Recorded(before, promises, m, policy, bindings)
    requires Width(Bust, policy) * m + 2 < |operations|
    ensures var after := RecordForfeit(before, operations[Width(Bust, policy) * m + 2], operations, bindings);
            after.Ok? && Recorded(after.value, promises, m + 1, policy, bindings)
  {
    var op := operations[Width(Bust, policy) * m + 2];
    OwnOperations(operations, promises, policy, player, m);
    SaleOfTransfer(operations, promises, policy, player, m, op);
    FreshOperation(before, promises, m, policy, bindings);
    hide BustOperations, Width, DraftsForPromises, DistinctAssets, Recorded, FindSale, FindInventory;
    RecordedAppend(before, NewInventoryRow(op, operations, bindings), NewForfeitEntry(op, bindings), promises, m, policy, bindings);
  }

  lemma OtherDraftsIgnored(operations: seq<Operation>, promises: seq<Promised>, policy: SettlementPolicy, player: Wallet, bindings: Bindings,
                           before: Inventory, m: nat, c: nat)
    requires BustOperations(operations, promises, policy, player) && m < |promises| && c < Width(Bust, policy) && c != 2
    requires Width(Bust, policy) * m + c < |operations|
    ensures RecordForfeit(before, operations[Width(Bust, policy) * m + c], operations, bindings) == Ok(before)
  {
    DraftAt(promises, Bust, policy, player, m, c);
  }

  /** The loop over one promise's three or four operations. */
  lemma RecordOwnOperations(inventory: Inventory, operations: seq<Operation>, n: nat, w: nat, bindings: Bindings, before: Inventory, after: Inventory)
    requires (w == 3 || w == 4) && n + w <= |operations|
    requires RecordForfeits(inventory, operations, n, bindings) == Ok(before)
    requires RecordForfeit(before, operations[n], operations, bindings) == Ok(before)
    requires RecordForfeit(before, operations[n + 1], operations, bindings) == Ok(before)
    requires RecordForfeit(before, operations[n + 2], operations, bindings) == Ok(after)
    requires w == 4 ==> RecordForfeit(after, operations[n + 3], operations, bindings) == Ok(after)
    ensures RecordForfeits(inventory, operations, n + w, bindings) == Ok(after)
  {
    hide RecordForfeit;
    assert RecordForfeits(inventory, operations, n + 1, bindings) == Ok(before);
    assert RecordForfeits(inventory, operations, n + 2, bindings) == Ok(before);
    assert RecordForfeits(inventory, operations, n + 3, bindings) == Ok(after);
  }

  /** One more promise recorded. */
  lemma RecordNextPromise(operations: seq<Operation>, promises: seq<Promised>, policy: SettlementPolicy, player: Wallet,
                          bindings: Bindings, m: nat, n: nat, before: Inventory)
    requires BustOperations(operations, promises, policy, player) && DistinctAssets(promises) && m < |promises|
    requires bindings.inventoryCustody == policy.inventoryCustody
    requires n == Width(Bust, policy) * m && n + Width(Bust, policy) <= |operations|
    requires RecordForfeits(Inventory([], []), operations, n, bindings) == Ok(before) && Recorded(before, promises, m, policy, bindings)
    ensures var after := RecordForfeits(Inventory([], []), operations, n + Width(Bust, policy), bindings);
            after.Ok? && Recorded(after.value, promises, m + 1, policy, bindings)
  {
    hide BustOperations, DistinctAssets, Recorded, RecordForfeits, RecordForfeit;
    OtherDraftsIgnored(operations, promises, policy, player, bindings, before, m, 0);
    OtherDraftsIgnored(operations, promises, policy, player, bindings, before, m, 1);
    RecordOnePromise(operations, promises, policy, player, bindings, before, m);
    var after := RecordForfeit(before, operations[n + 2], operations, bindings).value;
    if Width(Bust, policy) == 4 {
      OtherDraftsIgnored(operations, promises, policy, player, bindings, after, m, 3);
    }
    RecordOwnOperations(Inventory([], []), operations, n, Width(Bust, policy), bindings, before, after);
  }

  lemma {:induction false} RecordAllPromises(operations: seq<Operation>, promises: seq<Promised>, policy: SettlementPolicy, player: Wallet,
                                             bindings: Bindings, m: nat)
    requires BustOperations(operations, promises, policy, player) && DistinctAssets(promises) && m <= |promises|
    requires bindings.inventoryCustody == policy.inventoryCustody
    requires Width(Bust, policy) * m <= |operations|
    ensures var after := RecordForfeits(Inventory([], []), operations, Width(Bust, policy) * m, bindings);
            after.Ok? && Recorded(after.value, promises, m, policy, bindings)
  {
    if m > 0 {
      hide BustOperations, DistinctAssets, Recorded, RecordForfeits;
      OneLess(Width(Bust, policy), m);
      RecordAllPromises(operations, promises, policy, player, bindings, m - 1);
      var n := Width(Bust, policy) * (m - 1);
      RecordNextPromise(operations, promises, policy, player, bindings, m - 1, n, RecordForfeits(Inventory([], []), operations, n, bindings).value);
    } else {
      hide BustOperations, DistinctAssets;
    }
  }

  lemma OneLess(w: nat, m: nat)
    requires m > 0
    ensures w * m == w * (m - 1) + w
  {
  }

  function ValueOf(rows: seq<InventoryRow>): nat {
    if rows == [] then 0 else ValueOf(rows[..|rows| - 1]) + rows[|rows| - 1].value
  }

  function PromisedValue(promises: seq<Promised>): nat {
    if promises == [] then 0 else PromisedValue(promises[..|promises| - 1]) + promises[|promises| - 1].amount
  }

  lemma {:induction false} ValuesAgree(rows: seq<InventoryRow>, promises: seq<Promised>)
    requires |rows| == |promises| && forall k :: 0 <= k < |rows| ==> rows[k].value == promises[k].amount
    ensures ValueOf(rows) == PromisedValue(promises)
  {
    if rows != [] {
      ValuesAgree(rows[..|rows| - 1], promises[..|promises| - 1]);
    }
  }

  /**
   Closing a bust records exactly one inventory row and one forfeiture entry per
   promised asset, in order, worth what was promised, and disposed exactly when the
   policy liquidates.
   */
  lemma BustInventoryIsExact(store: Store, promises: seq<Promised>, policy: SettlementPolicy, player: Wallet)
    requires store.settlement.bindings.kind == Bust && store.settlement.bindings.inventoryCustody == policy.inventoryCustody
    requires store.inventory == Inventory([], []) && DistinctAssets(promises)
    requires BustOperations(store.operations, promises, policy, player)
    ensures InventoryAfter(store).Ok?
    ensures Recorded(InventoryAfter(store).value, promises, |promises|, policy, store.settlement.bindings)
    ensures ValueOf(InventoryAfter(store).value.rows) == PromisedValue(promises)
  {
    DraftCount(promises, Bust, policy, player);
    RecordAllPromises(store.operations, promises, policy, player, store.settlement.bindings, |promises|);
    ValuesAgree(InventoryAfter(store).value.rows, promises);
  }
}
