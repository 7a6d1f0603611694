/** The fate of one durable step of a process that may fail or die at it, before or after it took effect. */
module Faults {
  datatype Fate = Works | Fails(applied: bool) | Dies(applied: bool)

  datatype Step = Done | Failed | Died
}
