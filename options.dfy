/** A value that may be absent: a DOM element `querySelector` did not find,
    a style property never written, a `localStorage` key never set. */
module Options {

  datatype Option<+T> = None | Some(value: T)

}
