/** The optional value the components use for "not computed yet", a lookup miss
    (`undefined`) and a number that did not parse (`NaN`). */
module Options {

  datatype Option<+T> = None | Some(value: T)
}
