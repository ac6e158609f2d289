/** Small value types shared by the three plugin models. */
module Common {

  /** A JavaScript value that may be `undefined` (an absent sparse-array slot, a missing record). */
  datatype Option<+T> = None | Some(value: T)

  /** The outcome of a computation that can throw. */
  datatype Result<+T, +E> = Ok(value: T) | Err(error: E)

  /** The engine's switch store (`$gameSwitches`): a switch never written reads as OFF. */
  type SwitchStore = map<int, bool>

  /** `$gameSwitches.value(id)` */
  function SwitchValue(store: SwitchStore, id: int): (r: bool)
  {
    id in store && store[id]
  }
}
