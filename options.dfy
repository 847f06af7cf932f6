/** Option type: stands in for the Java `null` returned when a cell has no vegetable. */
module Options {

  datatype Option<+T> = None | Some(value: T)
}
