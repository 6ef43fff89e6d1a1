/** The state store of app/state/db_access.py: the current mood under one
    key and one wallet record per address. JSON encoding is left out: a
    stored record reads back as the record written. */
module DbAccess {
  import opened Common
  import opened StateModels

  const MoodKey: string := "smos:state:mood"
  const WalletKeyPrefix: string := "smos:state:wallet:"

  /** The key a wallet is stored under. */
  function WalletKey(address: string): (k: string)
    ensures StartsWith(k, WalletKeyPrefix)
    ensures k[|WalletKeyPrefix|..] == address
  {
    WalletKeyPrefix + address
  }

  /** Distinct addresses never share a key, so wallets are keyed by address. */
  lemma WalletKeyInjective(a: string, b: string)
    requires WalletKey(a) == WalletKey(b)
    ensures a == b
  {
    assert a == WalletKey(a)[|WalletKeyPrefix|..];
  }

  class StateManager {
    /** The record under MoodKey, if any. */
    var mood: Option<Mood>
    /** The record under WalletKey(address), by address. */
    var wallets: map<string, Wallet>

    /** Every wallet is stored under its own address: `update_wallet` is
        the only writer and keys the record by `wallet.address`. */
    predicate Valid()
      reads this
    {
      forall a :: a in wallets ==> wallets[a].address == a
    }

    /** A manager over an empty store. */
    constructor ()
      ensures Valid()
      ensures mood == None && wallets == map[]
    {
      mood := None;
      wallets := map[];
    }

    /** `get_mood()`: the stored mood, or a default one when nothing is stored. */
    method GetMood(now: Timestamp) returns (m: Mood)
      ensures mood.None? ==> m == DefaultMood(now)
      ensures mood.Some? ==> m == mood.value
    {
      if mood.None? {
        m := DefaultMood(now);
      } else {
        m := mood.value;
      }
    }

    /** `update_mood(mood)`: stamps `last_updated` and stores the record. */
    method UpdateMood(m: Mood, now: Timestamp) returns (stamped: Mood)
      requires Valid()
      modifies this
      ensures Valid()
      ensures stamped == m.(lastUpdated := now)
      ensures mood == Some(stamped)
      ensures wallets == old(wallets)
    {
      stamped := m.(lastUpdated := now);
      mood := Some(stamped);
    }

    /** `get_wallet(address)`: None for an address with no stored wallet. */
    method GetWallet(address: string) returns (w: Option<Wallet>)
      requires Valid()
      ensures address !in wallets ==> w == None
      ensures address in wallets ==> w == Some(wallets[address])
      ensures w.Some? ==> w.value.address == address
    {
      if address in wallets {
        w := Some(wallets[address]);
      } else {
        w := None;
      }
    }

    /** `update_wallet(wallet)`: stamps `last_updated` and stores the record
        under its own address; no other address changes. */
    method UpdateWallet(w: Wallet, now: Timestamp) returns (stamped: Wallet)
      requires Valid()
      modifies this
      ensures Valid()
      ensures stamped == w.(lastUpdated := now)
      ensures wallets == old(wallets)[w.address := stamped]
      ensures forall a :: a in old(wallets) && a != w.address ==> a in wallets && wallets[a] == old(wallets)[a]
      ensures mood == old(mood)
    {
      stamped := w.(lastUpdated := now);
      wallets := wallets[w.address := stamped];
    }
  }

  /** Writing a mood and reading it back gives the same valence, arousal,
      dominance and thought, stamped with the write time. */
  method MoodRoundTrip(sm: StateManager, m: Mood, writeTime: Timestamp, readTime: Timestamp)
    returns (read: Mood)
    requires sm.Valid()
    modifies sm
    ensures read == m.(lastUpdated := writeTime)
    ensures read.valence == m.valence && read.arousal == m.arousal
    ensures read.dominance == m.dominance && read.currentThought == m.currentThought
  {
    var _ := sm.UpdateMood(m, writeTime);
    read := sm.GetMood(readTime);
  }

  /** Writing a wallet and reading it back by its address gives it back,
      stamped with the write time. */
  method WalletRoundTrip(sm: StateManager, w: Wallet, now: Timestamp)
    returns (read: Option<Wallet>)
    requires sm.Valid()
    modifies sm
    ensures read == Some(w.(lastUpdated := now))
  {
    var _ := sm.UpdateWallet(w, now);
    read := sm.GetWallet(w.address);
  }
}
