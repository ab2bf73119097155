/** The optional value shared by the GPIO and Ethernet register models:
    an absent flags pointer, a pin range that does not cover a line, an
    offset that names no register, a word that holds no MII command. */
module Wrappers {

  datatype Option<T> = None | Some(value: T)
}
