/** Values shared by every component of the model. */
module Common {
  datatype Option<+T> = None | Some(value: T)

  /** Seconds since a fixed epoch that falls on a midnight UTC. */
  type Time = int
}
