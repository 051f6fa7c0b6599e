/** ExitScene: the scene whose only behaviour is to ask the game to end when entered. */
module ExitScenes {

  import opened Events
  import opened EngineTypes

  class ExitScene {

    constructor ()
    {
    }

    /** Posts one EXIT_GAME event; the scene itself holds no state to change. */
    method Enter(bus: Bus)
      modifies bus.subscribers
      ensures bus.PostedExactly([ExitGameEvent()])
    {
      bus.PostEvent(ExitGameEvent());
    }

    method Exit()
    {
    }

    method HandleInput(input: InputStruct)
    {
    }

    method Render(layer: RenderLayer)
    {
    }

    method Update()
    {
    }
  }
}
