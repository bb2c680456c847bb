/** Types that several components share. */
module Common {
  datatype Option<+T> = None | Some(value: T)

  /** The state of a peer in SWIM failure detection. */
  datatype Health = Alive | Suspect | Dead
}
