/** The nine scenes of the ID card app, the events the scene manager delivers
    to them, and the transition table that the scenes' event handlers implement. */
module Scenes {
  import opened Wrappers

  /** An unsigned 32-bit value, as carried by a custom scene-manager event
      and by a submenu item index. */
  newtype u32 = x: int | 0 <= x < 0x1_0000_0000

  /** The scenes, in the order of their enum (and of the handler tables). */
  datatype Scene =
    | MainMenu
    | IdCard
    | InputName
    | InputEmail
    | InputTel
    | InputAddr
    | InputNotes
    | GreetingMessage
    | About

  /** Number of scenes; the length of each handler table. */
  const SceneCount: u32 := 9

  /** The scene-manager event kinds the host delivers to on_event handlers. */
  datatype EventType = Custom | Back | Tick

  datatype SceneEvent = SceneEvent(kind: EventType, value: u32)

  /** Submenu item indices of the main menu. */
  const MenuIdCard: u32 := 0
  const MenuSetup: u32 := 1
  const MenuAbout: u32 := 2

  /** Custom events understood by the main menu. */
  const IdCardEvent: u32 := 0
  const SetupEvent: u32 := 1

  /** The one custom event the input scenes react to: the text-input
      widget's "done" callback sends it (value 5 of the input-event enum). */
  const SaveEvent: u32 := 5

  predicate IsSave(e: SceneEvent) {
    e.kind == Custom && e.value == SaveEvent
  }

  /** Position of a scene in the scene enum, which indexes the handler tables. */
  function SceneId(s: Scene): (id: u32)
    ensures id < SceneCount
  {
    match s
    case MainMenu => 0
    case IdCard => 1
    case InputName => 2
    case InputEmail => 3
    case InputTel => 4
    case InputAddr => 5
    case InputNotes => 6
    case GreetingMessage => 7
    case About => 8
  }

  /** The scene a table index stands for; indices past the table name none. */
  function SceneAt(id: u32): (s: Option<Scene>)
    ensures s.Some? <==> id < SceneCount
    ensures s.Some? ==> SceneId(s.value) == id
  {
    if id == 0 then Some(MainMenu)
    else if id == 1 then Some(IdCard)
    else if id == 2 then Some(InputName)
    else if id == 3 then Some(InputEmail)
    else if id == 4 then Some(InputTel)
    else if id == 5 then Some(InputAddr)
    else if id == 6 then Some(InputNotes)
    else if id == 7 then Some(GreetingMessage)
    else if id == 8 then Some(About)
    else None
  }

  /** The handler tables are indexed consistently: each scene's slot leads back to it. */
  lemma SceneTableIndex(s: Scene)
    ensures SceneAt(SceneId(s)) == Some(s)
  {
    match s
    case MainMenu =>
    case IdCard =>
    case InputName =>
    case InputEmail =>
    case InputTel =>
    case InputAddr =>
    case InputNotes =>
    case GreetingMessage =>
    case About =>
  }

  /** The input scenes, in the order the setup chain visits them. */
  predicate IsInput(s: Scene) {
    s in {InputName, InputEmail, InputTel, InputAddr, InputNotes}
  }

  /** The transition table of the app's on_event handlers: the scene requested
      when `e` reaches the current scene `s`, or None when the handler does not
      consume `e`. Only custom events are consumed, and no handler requests a
      scene earlier in the enum than its own; an event no handler consumes,
      Back included, requests nothing. Returning to a scene is left to the
      scene manager's back navigation. */
  function Transition(s: Scene, e: SceneEvent): (next: Option<Scene>)
    ensures next.Some? ==> e.kind == Custom
    ensures next.Some? ==> SceneId(s) < SceneId(next.value)
  {
    if e.kind != Custom then None
    else
      match s
      case MainMenu =>
        if e.value == IdCardEvent then Some(IdCard)
        else if e.value == SetupEvent then Some(InputName)
        else None
      case InputName => if e.value == SaveEvent then Some(InputEmail) else None
      case InputEmail => if e.value == SaveEvent then Some(InputTel) else None
      case InputTel => if e.value == SaveEvent then Some(InputAddr) else None
      case InputAddr => if e.value == SaveEvent then Some(InputNotes) else None
      case InputNotes => if e.value == SaveEvent then Some(GreetingMessage) else None
      case IdCard => None
      case GreetingMessage => None
      case About => None
  }

  /** What each input scene does with an event: it consumes exactly the save
      event, and moves on to a scene later in the chain. */
  lemma InputScenesConsumeOnlySave(s: Scene, e: SceneEvent)
    requires IsInput(s)
    ensures Transition(s, e).Some? <==> IsSave(e)
    ensures Transition(s, e).Some? ==> SceneId(Transition(s, e).value) == SceneId(s) + 1
  {
  }

  /** The card, greeting and about scenes consume nothing. */
  lemma DisplayScenesConsumeNothing(s: Scene, e: SceneEvent)
    requires s == IdCard || s == GreetingMessage || s == About
    ensures Transition(s, e) == None
  {
  }

  /** The scene a main-menu item leads to, or None for an index the menu does not have. */
  function MenuTarget(index: u32): (target: Option<Scene>)
    ensures target.Some? <==> index < 3
  {
    if index == MenuIdCard then Some(IdCard)
    else if index == MenuSetup then Some(InputName)
    else if index == MenuAbout then Some(About)
    else None
  }

  /** The "ID Card" and "Setup" items go through the main menu's event
      handler; "About" does not: the same value as a custom event is not
      consumed by the main menu, so the item requests its scene directly. */
  lemma MenuRoutes(index: u32)
    ensures index == MenuIdCard || index == MenuSetup ==>
              MenuTarget(index) == Transition(MainMenu, SceneEvent(Custom, index))
    ensures index == MenuAbout ==>
              Transition(MainMenu, SceneEvent(Custom, index)) == None && MenuTarget(index) == Some(About)
  {
  }
}
