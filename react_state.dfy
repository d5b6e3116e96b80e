/**
 * A `useState` cell: the value a component holds and the setter its handlers call.
 * Each list or record a component keeps is one cell, so a handler that calls one
 * setter visibly leaves every other cell alone.
 */
module ReactState {

  class State<T> {
    var value: T

    constructor(init: T)
      ensures value == init
    {
      value := init;
    }

    /** The setter: the next render sees `v`. */
    method Set(v: T)
      modifies this
      ensures value == v
    {
      value := v;
    }
  }
}
