/** Engine enumerations shared by the scenes: translated input and render layers. */
module EngineTypes {

  /** InputEnum: the keys the scenes react to; every other key is OTHER_KEY. */
  datatype InputEvent =
    | PRESS_ESCAPE
    | PRESS_S
    | PRESS_DOWN
    | PRESS_W
    | PRESS_UP
    | PRESS_SPACE
    | PRESS_ENTER
    | PRESS_O
    | OTHER_KEY(code: nat)

  /** InputStruct, reduced to the field the scenes read. */
  datatype InputStruct = InputStruct(inputEvent: InputEvent)

  datatype RenderLayer =
    | BACKGROOUND
    | GROUND
    | MAINBOARD
    | HITBOXES
    | OVERHEAD
    | USER_INTERFACE
    | MENU
}
