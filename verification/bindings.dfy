/** A SwiftUI `@Binding`: a read/write reference to state that the view
    does not own. Several views may hold the same binding; a write through
    one is seen by every other holder at its next render. */
module Bindings {

  class Binding<T> {
    var value: T

    constructor (initial: T)
      ensures value == initial
    {
      value := initial;
    }
  }
}
