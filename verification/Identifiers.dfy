/** The names of tasks, which the code takes from the addresses of their control
    blocks. */
module Identifiers {

  type Tid = nat
}
