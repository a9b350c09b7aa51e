/** The input events a system reads in one tick (Amethyst's
    `InputEvent<StringBindings>`), reduced to the variants the controllers
    look at. */
module Events {

  datatype InputEvent =
    | ActionPressed(action: string)
    | ActionReleased(action: string)
    | MouseMoved(deltaX: real, deltaY: real)
      /** Any other input event (key, button, axis, ...): both systems skip it. */
    | OtherEvent
}
