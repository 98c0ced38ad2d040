/**
 * The coordinate epoch of a scheduler target (internal/store/models/scheduler).
 * Its integer codes mirror NINA's Epoch enum, and it is written to JSON by name.
 */
module Scheduler {
  import opened Wrappers
  import Json

  /** Go's `type Epoch int`: any int can be stored, four of them are defined. */
  type Epoch = int

  const EpochJNOW: Epoch := 0
  const EpochB1950: Epoch := 1
  const EpochJ2000: Epoch := 2
  const EpochJ2050: Epoch := 3

  /** NINA's epoch names, in the order of its enum: code k is named at index k. */
  const NinaEpochNames: seq<string> := ["JNOW", "B1950", "J2000", "J2050"]

  predicate IsDefined(e: Epoch) {
    0 <= e < |NinaEpochNames|
  }

  /**
   * Epoch.String: a defined code is named as in NINA's enum; every other code,
   * negative ones included, is "Unknown", a name no defined code has.
   */
  function EpochString(e: Epoch): (name: string)
    ensures IsDefined(e) ==> name == NinaEpochNames[e]
    ensures !IsDefined(e) ==> name == "Unknown"
    ensures name == "Unknown" <==> !IsDefined(e)
  {
    if e == EpochJNOW then "JNOW"
    else if e == EpochB1950 then "B1950"
    else if e == EpochJ2000 then "J2000"
    else if e == EpochJ2050 then "J2050"
    else "Unknown"
  }

  /** The defined code a name stands for, if any. */
  function EpochFromName(name: string): (r: Option<Epoch>)
    ensures r.Some? ==> IsDefined(r.value)
  {
    if name == "JNOW" then Some(EpochJNOW)
    else if name == "B1950" then Some(EpochB1950)
    else if name == "J2000" then Some(EpochJ2000)
    else if name == "J2050" then Some(EpochJ2050)
    else None
  }

  /** A defined code is read back from its name; "Unknown" reads back as no code. */
  lemma EpochNameRoundTrip(e: Epoch)
    ensures EpochFromName(EpochString(e)) == if IsDefined(e) then Some(e) else None
  {
  }

  /** String is injective on the four defined codes. */
  lemma EpochStringInjective(a: Epoch, b: Epoch)
    requires IsDefined(a) && IsDefined(b) && EpochString(a) == EpochString(b)
    ensures a == b
  {
  }

  /** Every epoch name, "Unknown" included, is written by Marshal without escapes. */
  lemma EpochNamePlain(e: Epoch)
    ensures forall i :: 0 <= i < |EpochString(e)| ==> Json.Plain(EpochString(e)[i])
  {
  }

  /**
   * Epoch.MarshalJSON: the epoch's name as a JSON string literal, never its numeric code.
   * No name needs escaping, so the bytes are a double quote, the name and a double quote,
   * the error is always nil, and decoding the literal gives back the name.
   */
  function MarshalJSON(e: Epoch): (r: Result<string, string>)
    ensures r.Success?
    ensures r.value == "\"" + EpochString(e) + "\""
    ensures Json.Unquote(r.value) == Some(EpochString(e))
  {
    EpochNamePlain(e);
    Success(Json.Marshal(EpochString(e)))
  }
}
