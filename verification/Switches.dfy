/** The two kinds of networks the stack speaks to. */
module Switches {
  datatype Switch = ITU | ANSI
}
