/** The shared-state records of app/state/models.py: the Muse's mood and
    wallet, with the field ranges and defaults the pydantic models declare. */
module StateModels {
  import opened Common

  /** Wall-clock time as the caller supplies it; the model never reads a clock. */
  type Timestamp = int

  /** A field whose value violates its declared range. */
  datatype ValidationError = OutOfRange(field: string)

  datatype Mood = Mood(
    valence: real,
    arousal: real,
    dominance: real,
    currentThought: Option<string>,
    lastUpdated: Timestamp)

  /** The ranges declared on the Mood fields. */
  predicate ValidMood(m: Mood)
  {
    -1.0 <= m.valence <= 1.0 && 0.0 <= m.arousal <= 1.0 && 0.0 <= m.dominance <= 1.0
  }

  /** `Mood(...)`: construction validates each range. Where several fields
      are out of range the model reports only the first of them in
      declaration order; the validation error lists them all. */
  function NewMood(valence: real, arousal: real, dominance: real,
                   thought: Option<string>, now: Timestamp): (r: Result<Mood, ValidationError>)
    ensures r.Ok? <==> -1.0 <= valence <= 1.0 && 0.0 <= arousal <= 1.0 && 0.0 <= dominance <= 1.0
    ensures r.Ok? ==> ValidMood(r.value) && r.value == Mood(valence, arousal, dominance, thought, now)
    ensures r.Err? && !(-1.0 <= valence <= 1.0) ==> r.error == OutOfRange("valence")
  {
    if !(-1.0 <= valence <= 1.0) then Err(OutOfRange("valence"))
    else if !(0.0 <= arousal <= 1.0) then Err(OutOfRange("arousal"))
    else if !(0.0 <= dominance <= 1.0) then Err(OutOfRange("dominance"))
    else Ok(Mood(valence, arousal, dominance, thought, now))
  }

  /** `Mood()`: every field at its default. */
  function DefaultMood(now: Timestamp): (m: Mood)
    ensures ValidMood(m)
    ensures m.valence == 0.0 && m.arousal == 0.0 && m.dominance == 0.0
    ensures m.currentThought == None && m.lastUpdated == now
  {
    NewMood(0.0, 0.0, 0.0, None, now).value
  }

  /** A wallet. `internalUsd` is the internal accounting balance that the
      ledger debits and credits; the declared record has no such field, so
      it is added here as the ledger uses it. */
  datatype Wallet = Wallet(
    address: string,
    balance: real,
    currency: string,
    internalUsd: real,
    lastUpdated: Timestamp)

  predicate ValidWallet(w: Wallet)
  {
    w.balance >= 0.0
  }

  /** `Wallet(...)`: fails exactly when the balance is negative. */
  function NewWallet(address: string, balance: real, currency: string,
                     internalUsd: real, now: Timestamp): (r: Result<Wallet, ValidationError>)
    ensures r.Ok? <==> balance >= 0.0
    ensures r.Ok? ==> ValidWallet(r.value) && r.value == Wallet(address, balance, currency, internalUsd, now)
    ensures r.Err? ==> r.error == OutOfRange("balance")
  {
    if balance >= 0.0 then Ok(Wallet(address, balance, currency, internalUsd, now))
    else Err(OutOfRange("balance"))
  }

  /** `Wallet(address=a)`: balance 0.0, currency SOL. */
  function DefaultWallet(address: string, now: Timestamp): (w: Wallet)
    ensures ValidWallet(w)
    ensures w.address == address && w.balance == 0.0 && w.currency == "SOL"
    ensures w.internalUsd == 0.0 && w.lastUpdated == now
  {
    NewWallet(address, 0.0, "SOL", 0.0, now).value
  }
}
