/** An optional value: `undefined`/`null` in the pages is `None`. */
module Options {

  datatype Option<+T> = None | Some(value: T)
}
