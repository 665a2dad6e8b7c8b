/** The app object: the five record strings, the shared text-input buffer, and
    the scene handlers, which update them in place. Calls into the host are
    replaced by what they are asked to do: the scene most recently requested
    from the scene manager is kept in `requested`, the writes a save makes are
    returned, and the card's widget elements are returned. */
module IdApp {
  import opened Wrappers
  import opened Scenes
  import opened Records
  import opened Store
  import opened Layout
  import opened Flow

  class App {
    var name: string
    var email: string
    var tel: string
    var addr: string
    var notes: string
    /** The buffer the text-input widget fills; shared by every input scene. */
    var buffer: string
    /** The scene most recently requested from the scene manager, if any. */
    var requested: Option<Scene>

    /** The record the five strings hold. */
    function Fields(): Record
      reads this
    {
      Record(name, email, tel, addr, notes)
    }

    /** Allocation: five empty strings, then one load from the file. The
        buffer is left as allocated, with unspecified contents. */
    constructor (file: Option<map<string, string>>)
      ensures Fields() == Merge(Empty, file)
      ensures requested == None
    {
      name, email, tel, addr, notes := "", "", "", "", "";
      requested := None;
      new;
      LoadData(file);
    }

    /** Loads the file into the record: when it opens, each field whose key
        reads is overwritten, in the order name, email, tel, addr, notes. */
    method LoadData(file: Option<map<string, string>>)
      modifies this`name, this`email, this`tel, this`addr, this`notes
      ensures Fields() == Merge(old(Fields()), file)
    {
      match file {
        case None =>
        case Some(m) =>
          if "Name" in m {
            name := m["Name"];
          }
          if "Email" in m {
            email := m["Email"];
          }
          if "Tel" in m {
            tel := m["Tel"];
          }
          if "Addr" in m {
            addr := m["Addr"];
          }
          if "Notes" in m {
            notes := m["Notes"];
          }
      }
      RecordExtensionality(Fields(), Merge(old(Fields()), file));
    }

    /** Saves the record: nothing is written when the file does not open;
        otherwise the header "ID Data" version 1, then the pairs Name, Email,
        Tel, Addr and Notes, in that order, with the current strings. */
    method SaveData(opens: bool) returns (log: seq<Entry>)
      ensures !opens ==> log == []
      ensures opens ==> log == SaveLog(Fields())
      ensures opens ==> Merge(Empty, Some(Contents(log))) == Fields()
    {
      log := [];
      if opens {
        log := log + [Header(FileType, FormatVersion)];
        log := log + [Pair("Name", name)];
        log := log + [Pair("Email", email)];
        log := log + [Pair("Tel", tel)];
        log := log + [Pair("Addr", addr)];
        log := log + [Pair("Notes", notes)];
        LoadAfterSave(Empty, Fields());
      }
    }

    /** The submenu's callback: "ID Card" and "Setup" go through the main
        menu's event handler (the main menu is the current scene while its
        submenu is shown); "About" requests its scene directly. */
    method MenuCallback(index: u32)
      modifies this`requested
      ensures requested == if MenuTarget(index).Some? then MenuTarget(index) else old(requested)
    {
      if index == MenuIdCard {
        var _ := MainMenuOnEvent(SceneEvent(Custom, IdCardEvent));
      } else if index == MenuSetup {
        var _ := MainMenuOnEvent(SceneEvent(Custom, SetupEvent));
      } else if index == MenuAbout {
        requested := Some(About);
      }
    }

    /** Custom event 0 requests the card scene, custom event 1 the name
        prompt; both are consumed. Anything else is not, and requests nothing. */
    method MainMenuOnEvent(event: SceneEvent) returns (consumed: bool)
      modifies this`requested
      ensures consumed <==> event.kind == Custom && (event.value == IdCardEvent || event.value == SetupEvent)
      ensures requested == if consumed then Transition(MainMenu, event) else old(requested)
      ensures consumed ==> requested == Some(if event.value == IdCardEvent then IdCard else InputName)
    {
      consumed := false;
      match event.kind {
        case Custom =>
          if event.value == IdCardEvent {
            requested := Some(IdCard);
            consumed := true;
          } else if event.value == SetupEvent {
            requested := Some(InputName);
            consumed := true;
          }
        case _ =>
      }
    }

    /** Entering the card scene: the title first, then a load from the file,
        then one label/value line per non-empty field among name, email, tel
        and addr, 10 apart from y = 20 on, and the notes label with a scroll
        box 5 above it when the notes are non-empty. */
    method CardSceneOnEnter(file: Option<map<string, string>>) returns (elements: seq<Element>)
      modifies this`name, this`email, this`tel, this`addr, this`notes
      ensures Fields() == Merge(old(Fields()), file)
      ensures elements == CardLayout(Fields())
    {
      elements := [Text(90, 5, Primary, "ID Card")];
      LoadData(file);
      ghost var r := Fields();
      ghost var before: seq<Element>, y0: int;

      var y := 20;
      before, y0 := elements, y;
      if name != "" {
        elements := elements + [Text(0, y, Secondary, "Name:"), Text(26, y, Secondary, name)];
        y := y + 10;
      }
      CardLine(r, 0, before, y0, "Name:", name, elements, y);

      before, y0 := elements, y;
      if email != "" {
        elements := elements + [Text(0, y, Secondary, "Email:"), Text(26, y, Secondary, email)];
        y := y + 10;
      }
      CardLine(r, 1, before, y0, "Email:", email, elements, y);

      before, y0 := elements, y;
      if tel != "" {
        elements := elements + [Text(0, y, Secondary, "Tel:"), Text(26, y, Secondary, tel)];
        y := y + 10;
      }
      CardLine(r, 2, before, y0, "Tel:", tel, elements, y);

      before, y0 := elements, y;
      if addr != "" {
        elements := elements + [Text(0, y, Secondary, "Addr:"), Text(26, y, Secondary, addr)];
        y := y + 10;
      }
      CardLine(r, 3, before, y0, "Addr:", addr, elements, y);

      before := elements;
      if notes != "" {
        elements := elements + [Text(0, y, Secondary, "Notes:"), Scroll(26, y - 5, 100, 5, notes)];
      }
      CardEnd(r, before, y, notes, elements);
    }

    /** The card scene consumes no event and changes nothing. */
    method CardSceneOnEvent(event: SceneEvent) returns (consumed: bool)
      ensures !consumed
    {
      consumed := false;
    }

    /** On the save event: name := buffer, the email prompt is requested, and
        the event is consumed. Any other event: nothing changes. */
    method InputNameOnEvent(event: SceneEvent) returns (consumed: bool)
      modifies this`name, this`requested
      ensures consumed == IsSave(event)
      ensures Fields() == if consumed then old(Fields()).(name := buffer) else old(Fields())
      ensures requested == if consumed then Some(InputEmail) else old(requested)
    {
      if event.kind == Custom && event.value == SaveEvent {
        name := buffer;
        requested := Some(InputEmail);
        return true;
      }
      return false;
    }

    /** On the save event: email := buffer, the tel prompt is requested, and
        the event is consumed. Any other event: nothing changes. */
    method InputEmailOnEvent(event: SceneEvent) returns (consumed: bool)
      modifies this`email, this`requested
      ensures consumed == IsSave(event)
      ensures Fields() == if consumed then old(Fields()).(email := buffer) else old(Fields())
      ensures requested == if consumed then Some(InputTel) else old(requested)
    {
      if event.kind == Custom && event.value == SaveEvent {
        email := buffer;
        requested := Some(InputTel);
        return true;
      }
      return false;
    }

    /** On the save event: tel := buffer, the address prompt is requested, and
        the event is consumed. Any other event: nothing changes. */
    method InputTelOnEvent(event: SceneEvent) returns (consumed: bool)
      modifies this`tel, this`requested
      ensures consumed == IsSave(event)
      ensures Fields() == if consumed then old(Fields()).(tel := buffer) else old(Fields())
      ensures requested == if consumed then Some(InputAddr) else old(requested)
    {
      if event.kind == Custom && event.value == SaveEvent {
        tel := buffer;
        requested := Some(InputAddr);
        return true;
      }
      return false;
    }

    /** On the save event: addr := buffer, the notes prompt is requested, and
        the event is consumed. Any other event: nothing changes. */
    method InputAddrOnEvent(event: SceneEvent) returns (consumed: bool)
      modifies this`addr, this`requested
      ensures consumed == IsSave(event)
      ensures Fields() == if consumed then old(Fields()).(addr := buffer) else old(Fields())
      ensures requested == if consumed then Some(InputNotes) else old(requested)
    {
      if event.kind == Custom && event.value == SaveEvent {
        addr := buffer;
        requested := Some(InputNotes);
        return true;
      }
      return false;
    }

    /** On the save event: notes := buffer, then the record is saved (so the
        file gets the notes just entered), the greeting is requested, and the
        event is consumed. Any other event: nothing changes, nothing is written. */
    method InputNotesOnEvent(event: SceneEvent, opens: bool) returns (consumed: bool, log: seq<Entry>)
      modifies this`notes, this`requested
      ensures consumed == IsSave(event)
      ensures Fields() == if consumed then old(Fields()).(notes := buffer) else old(Fields())
      ensures requested == if consumed then Some(GreetingMessage) else old(requested)
      ensures log == if consumed && opens then SaveLog(old(Fields()).(notes := buffer)) else []
    {
      log := [];
      if event.kind == Custom && event.value == SaveEvent {
        notes := buffer;
        log := SaveData(opens);
        requested := Some(GreetingMessage);
        return true, log;
      }
      return false, log;
    }

    /** The greeting scene consumes no event and changes nothing. */
    method GreetingOnEvent(event: SceneEvent) returns (consumed: bool)
      ensures !consumed
    {
      consumed := false;
    }

    /** The about scene consumes no event and changes nothing. */
    method AboutOnEvent(event: SceneEvent) returns (consumed: bool)
      ensures !consumed
    {
      consumed := false;
    }

    /** The text-input widget's "done" at input scene `p.scene`: `text` is in
        the buffer and the save event goes through the handler table. The app
        then stands where one step of the session model leads: its record is
        the step's record, the scene it requested is the step's scene, and
        what it writes is what the step puts in the file. */
    method ConfirmText(p: Progress, text: string, opens: bool) returns (next: Progress, log: seq<Entry>)
      requires IsInput(p.scene) && Fields() == p.rec
      modifies this`name, this`email, this`tel, this`addr, this`notes, this`buffer, this`requested
      ensures next == Step(p, SceneEvent(Custom, SaveEvent), text, opens)
      ensures Fields() == next.rec && requested == Some(next.scene) && buffer == text
      ensures log == if Saves(p.scene, SceneEvent(Custom, SaveEvent)) && opens then SaveLog(Fields()) else []
      ensures next.file == if log != [] then Some(log) else p.file
    {
      var save := SceneEvent(Custom, SaveEvent);
      buffer := text;
      InputScenesConsumeOnlySave(p.scene, save);
      var _, written := OnEvent(p.scene, save, opens);
      log := written;
      next := Step(p, save, text, opens);
    }

    /** The on_event handler table, indexed by the current scene: the event is
        consumed exactly when the transition table has an entry for it, that
        entry is the scene requested, the record changes as `Handle` says, and
        the file is written only by the notes step. */
    method OnEvent(scene: Scene, event: SceneEvent, opens: bool) returns (consumed: bool, log: seq<Entry>)
      modifies this`name, this`email, this`tel, this`addr, this`notes, this`requested
      ensures consumed == Transition(scene, event).Some?
      ensures requested == if consumed then Transition(scene, event) else old(requested)
      ensures Fields() == Handle(scene, event, old(Fields()), buffer)
      ensures log == if Saves(scene, event) && opens then SaveLog(Fields()) else []
    {
      log := [];
      match scene {
        case MainMenu => consumed := MainMenuOnEvent(event);
        case IdCard => consumed := CardSceneOnEvent(event);
        case InputName => consumed := InputNameOnEvent(event);
        case InputEmail => consumed := InputEmailOnEvent(event);
        case InputTel => consumed := InputTelOnEvent(event);
        case InputAddr => consumed := InputAddrOnEvent(event);
        case InputNotes => consumed, log := InputNotesOnEvent(event, opens);
        case GreetingMessage => consumed := GreetingOnEvent(event);
        case About => consumed := AboutOnEvent(event);
      }
      RecordExtensionality(Fields(), Handle(scene, event, old(Fields()), buffer));
    }
  }

  /** A setup session on the app object: started with no file, the "Setup"
      item is chosen and `texts` are confirmed one by one. The app ends with
      the greeting requested and exactly those five texts in its record; the
      file then holds them when it opens, and entering the card scene from
      that file shows them. */
  method SetupSession(texts: seq<string>, opens: bool) returns (app: App, log: seq<Entry>, card: seq<Element>)
    requires |texts| == 5
    ensures app.Fields() == Record(texts[0], texts[1], texts[2], texts[3], texts[4])
    ensures app.requested == Some(GreetingMessage)
    ensures log == if opens then SaveLog(app.Fields()) else []
    ensures card == CardLayout(app.Fields())
  {
    app := new App(None);
    app.MenuCallback(MenuSetup);
    var p := Progress(InputName, app.Fields(), None);
    SetupSteps(Empty, texts[0], texts[1], texts[2], texts[3], texts[4], opens, None);
    var written: seq<Entry>;
    p, written := app.ConfirmText(p, texts[0], opens);
    p, written := app.ConfirmText(p, texts[1], opens);
    p, written := app.ConfirmText(p, texts[2], opens);
    p, written := app.ConfirmText(p, texts[3], opens);
    p, log := app.ConfirmText(p, texts[4], opens);
    if opens {
      LoadAfterSave(app.Fields(), app.Fields());
      card := app.CardSceneOnEnter(Some(Contents(log)));
    } else {
      card := app.CardSceneOnEnter(None);
    }
  }
}
