/** An optional value; `None` stands for the runtime exception the source
    would throw at that point (an index past the end of a list). */
module Options {

  datatype Option<+T> = None | Some(value: T)
}
