/** The optional value used wherever the Java code keeps a nullable reference. */
module Wrappers {

  /** `None` stands for a Java `null`. */
  datatype Option<+T> = None | Some(value: T)
}
