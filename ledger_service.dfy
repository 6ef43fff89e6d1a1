/** The ledger of app/core/services/ledger_service.py over the state store:
    a wallet per address (kept by the StateManager) and, per address, an
    append-only list of recorded transactions. Recording is a plain
    sequential read-modify-write of the wallet followed by one append. */
module Ledger {
  import opened Common
  import opened StateModels
  import opened FinanceSchemas
  import opened DbAccess

  const HistoryKeyPrefix: string := "smos:finance:history:"

  /** The history `count` a caller gets by leaving it out. */
  const DefaultHistoryCount: int := 50

  datatype LedgerError =
    | InvalidTransaction(cause: ValidationError)   // pydantic rejects the transaction
    | WalletNotFound(address: string)              // ValueError

  /** The effect of a transaction on a balance: an expense debits, an
      income credits. */
  function SignedAmount(tx: Transaction): real
  {
    if tx.txType == Expense then -tx.amount else tx.amount
  }

  /** The new internal balance after one transaction. */
  function ApplyTx(balance: real, tx: Transaction): (r: real)
    ensures tx.txType == Expense ==> r == balance - tx.amount
    ensures tx.txType == Income ==> r == balance + tx.amount
    ensures ValidTransaction(tx) && tx.txType == Expense ==> r < balance
    ensures ValidTransaction(tx) && tx.txType == Income ==> r > balance
  {
    balance + SignedAmount(tx)
  }

  /** Sum of the signed amounts of a history. */
  function SumSigned(txs: seq<Transaction>): real
  {
    if txs == [] then 0.0 else SumSigned(txs[..|txs| - 1]) + SignedAmount(txs[|txs| - 1])
  }

  /** Applying the transactions one after another, oldest first. */
  function ApplyAll(balance: real, txs: seq<Transaction>): real
    decreases |txs|
  {
    if txs == [] then balance else ApplyAll(ApplyTx(balance, txs[0]), txs[1..])
  }

  /** After any sequence of recordings the balance is the opening balance
      plus the sum of the signed amounts. */
  lemma {:induction false} ApplyAllIsOpeningPlusSum(balance: real, txs: seq<Transaction>)
    ensures ApplyAll(balance, txs) == balance + SumSigned(txs)
    decreases |txs|
  {
    if txs != [] {
      ApplyAllIsOpeningPlusSum(ApplyTx(balance, txs[0]), txs[1..]);
      SumSignedFront(txs);
    }
  }

  lemma {:induction false} SumSignedFront(txs: seq<Transaction>)
    requires txs != []
    ensures SumSigned(txs) == SignedAmount(txs[0]) + SumSigned(txs[1..])
    decreases |txs|
  {
    if |txs| > 1 {
      SumSignedFront(txs[..|txs| - 1]);
      assert txs[..|txs| - 1][1..] == txs[1..][..|txs[1..]| - 1];
      assert txs[..|txs| - 1][0] == txs[0];
    } else {
      assert txs[..|txs| - 1] == [];
      assert txs[1..] == [];
    }
  }

  /** The list stored for an address; a missing list reads as empty. */
  function HistoryOf(history: map<string, seq<Transaction>>, address: string): seq<Transaction>
  {
    if address in history then history[address] else []
  }

  /** Redis `LRANGE list start stop`: negative indices count from the end,
      both ends are clamped, and the stop index is inclusive. */
  function LRange<T>(xs: seq<T>, start: int, stop: int): (r: seq<T>)
    ensures |r| <= |xs|
  {
    var n := |xs|;
    var lo0 := if start < 0 then n + start else start;
    var hi0 := if stop < 0 then n + stop else stop;
    var lo := if lo0 < 0 then 0 else lo0;
    var hi := if hi0 >= n then n - 1 else hi0;
    if lo > hi || lo >= n then [] else xs[lo..hi + 1]
  }

  /** `lrange(key, -count, -1)`, the window `get_transaction_history` reads. */
  function HistoryWindow<T>(xs: seq<T>, count: int): seq<T>
  {
    LRange(xs, -count, -1)
  }

  /** The window is always a suffix of the history: for count >= 1 the last
      min(count, n) entries, for count = 0 everything (`lrange(key, 0, -1)`),
      and for a negative count the entries from index -count on. */
  lemma HistoryWindowIsSuffix<T>(xs: seq<T>, count: int)
    ensures var r := HistoryWindow(xs, count);
            && r == xs[|xs| - |r|..]
            && (count >= 1 ==> |r| == (if count < |xs| then count else |xs|))
            && (count == 0 ==> r == xs)
            && (count < 0 ==> r == if -count < |xs| then xs[-count..] else [])
  {
  }

  class LedgerService {
    const state: StateManager
    /** The list under HistoryKeyPrefix + address, by address. */
    var history: map<string, seq<Transaction>>

    constructor (state: StateManager)
      ensures this.state == state && history == map[]
    {
      this.state := state;
      history := map[];
    }

    /** `record_transaction`. The transaction id and the time are the
        caller's (a fresh uuid prefix and the clock in the source). */
    method RecordTransaction(address: string, txType: TransactionType, category: TransactionCategory,
                             amount: real, description: string, metadata: Option<map<string, string>>,
                             txId: string, now: Timestamp)
      returns (r: Result<Transaction, LedgerError>)
      requires state.Valid()
      modifies this, state
      ensures state.Valid()
      ensures r.Err? <==> amount <= 0.0 || address !in old(state.wallets)
      ensures amount <= 0.0 ==> r == Err(InvalidTransaction(OutOfRange("amount")))
      ensures amount > 0.0 && address !in old(state.wallets) ==> r == Err(WalletNotFound(address))
      ensures r.Err? ==> state.wallets == old(state.wallets) && history == old(history)
      ensures state.mood == old(state.mood)
      ensures r.Ok? ==>
                var tx := r.value;
                var w := old(state.wallets)[address];
                && tx == NewTransaction(txId, now, txType, category, amount, description, metadata).value
                && state.wallets == old(state.wallets)[address := w.(internalUsd := ApplyTx(w.internalUsd, tx), lastUpdated := now)]
                && history == old(history)[address := HistoryOf(old(history), address) + [tx]]
      ensures r.Ok? ==>
                state.wallets[address].internalUsd - SumSigned(HistoryOf(history, address))
                == old(state.wallets)[address].internalUsd - SumSigned(HistoryOf(old(history), address))
    {
      var made := NewTransaction(txId, now, txType, category, amount, description, metadata);
      if made.Err? {
        return Err(InvalidTransaction(made.error));
      }
      var tx := made.value;

      // 1. Update the wallet balance
      var found := state.GetWallet(address);
      if found.None? {
        return Err(WalletNotFound(address));
      }
      var wallet := found.value;
      if txType == Expense {
        wallet := wallet.(internalUsd := wallet.internalUsd - amount);
      } else {
        wallet := wallet.(internalUsd := wallet.internalUsd + amount);
      }
      var _ := state.UpdateWallet(wallet, now);

      // 2. Append to the history
      history := history[address := HistoryOf(history, address) + [tx]];
      assert HistoryOf(history, address)[..|HistoryOf(history, address)| - 1] == HistoryOf(old(history), address);
      r := Ok(tx);
    }

    /** `get_transaction_history(address, count)`: decodes each record of
        the window, in order. */
    method GetTransactionHistory(address: string, count: int) returns (txs: seq<Transaction>)
      ensures txs == HistoryWindow(HistoryOf(history, address), count)
    {
      var records := LRange(HistoryOf(history, address), -count, -1);
      txs := [];
      for i := 0 to |records|
        invariant txs == records[..i]
      {
        txs := txs + [records[i]];
      }
    }
  }

  /** The wallet record as declared: address, balance, currency and time.
      Validation keeps exactly these fields and drops any other key of the
      stored record, an internal balance included. */
  datatype DeclaredWallet = DeclaredWallet(address: string, balance: real, currency: string, lastUpdated: Timestamp)

  /** What reading a stored record back through the declared model keeps. */
  function AsDeclared(w: Wallet): DeclaredWallet
  {
    DeclaredWallet(w.address, w.balance, w.currency, w.lastUpdated)
  }

  datatype AsWrittenError =
    | RejectedTransaction(cause: ValidationError)
    | UnknownWallet(address: string)
    | MissingAttribute(name: string)   // AttributeError on the wallet object

  /** `record_transaction` over the declared record: after the amount check
      and the wallet lookup it reads `internal_usd_balance`, a field the
      declared record does not have. */
  function RecordAsWritten(stored: map<string, DeclaredWallet>, address: string, amount: real): (r: Result<DeclaredWallet, AsWrittenError>)
    ensures r.Err?
    ensures r == Err(MissingAttribute("internal_usd_balance")) <==> amount > 0.0 && address in stored
  {
    if amount <= 0.0 then Err(RejectedTransaction(OutOfRange("amount")))
    else if address !in stored then Err(UnknownWallet(address))
    else Err(MissingAttribute("internal_usd_balance"))
  }

  /** As written, no transaction is ever recorded: every call fails, and a
      valid amount on an existing wallet fails on the missing field. */
  lemma AsWrittenNeverRecords(stored: map<string, DeclaredWallet>, address: string, amount: real)
    ensures RecordAsWritten(stored, address, amount).Err?
    ensures amount > 0.0 && address in stored ==>
              RecordAsWritten(stored, address, amount) == Err(MissingAttribute("internal_usd_balance"))
  {
  }

  /** A concrete case: a stored wallet with 100 SOL and a 5.0 expense. The
      as-written record fails, while the corrected ledger debits the
      internal balance by 5.0. */
  method AsWrittenCounterexample() returns (asWritten: Result<DeclaredWallet, AsWrittenError>,
                                            corrected: Result<Transaction, LedgerError>, newBalance: real)
    ensures asWritten == Err(MissingAttribute("internal_usd_balance"))
    ensures corrected.Ok? && corrected.value.amount == 5.0 && newBalance == 5.0
  {
    var w := Wallet("addr", 100.0, "SOL", 10.0, 0);   // internal balance 10.0
    asWritten := RecordAsWritten(map["addr" := AsDeclared(w)], "addr", 5.0);
    var sm := new StateManager();
    var _ := sm.UpdateWallet(w, 0);
    var ledger := new LedgerService(sm);
    corrected := ledger.RecordTransaction("addr", Expense, ApiCost, 5.0, "render", None, "tx000001", 1);
    newBalance := sm.wallets["addr"].internalUsd;
  }
}
