/** What the leaves of a tree hold, and how much of it. */
module Entries {
  /** Keys of any totally ordered type; integers stand for them. */
  type Key = int
  type Val = nat

  datatype Entry = Entry(key: Key, val: Val)

  /** The number of slots of a leaf. */
  const N: nat := 14
}
