/** What the scenes' event handlers do to the record and to the file, stated
    as functions of the current scene, the event and the shared input buffer;
    and the setup chain that these steps make up. */
module Flow {
  import opened Wrappers
  import opened Scenes
  import opened Records
  import opened Store

  /** The field an input scene fills in; other scenes fill in none. */
  function InputField(s: Scene): (f: Option<Field>)
    ensures f.Some? <==> IsInput(s)
  {
    match s
    case InputName => Some(Name)
    case InputEmail => Some(Email)
    case InputTel => Some(Tel)
    case InputAddr => Some(Addr)
    case InputNotes => Some(Notes)
    case _ => None
  }

  /** The record after event `e` reaches scene `s` while the input buffer holds `b`. */
  function Handle(s: Scene, e: SceneEvent, r: Record, b: string): (r': Record)
    ensures !(IsSave(e) && IsInput(s)) ==> r' == r
    ensures IsSave(e) && IsInput(s) ==>
              && Get(r', InputField(s).value) == b
              && forall g :: g != InputField(s).value ==> Get(r', g) == Get(r, g)
  {
    if IsSave(e) && InputField(s).Some? then Set(r, InputField(s).value, b) else r
  }

  /** The one step that writes the file: the save event reaching the notes scene. */
  predicate Saves(s: Scene, e: SceneEvent) {
    s == InputNotes && IsSave(e)
  }

  /** The current scene, the record, and what the file holds (None: no file). */
  datatype Progress = Progress(scene: Scene, rec: Record, file: Option<seq<Entry>>)

  /** What loading finds in the file: its key/value content, or nothing when there is no file. */
  function Opened(file: Option<seq<Entry>>): Option<map<string, string>> {
    if file.Some? then Some(Contents(file.value)) else None
  }

  /** One event: the record changes as `Handle` says, the notes step rewrites
      the file when it opens, and the requested scene becomes current and is
      entered. Of the scenes an event can request, only the card scene's
      on_enter touches the record: it loads the file into it. An event that
      no handler consumes, Back included, leaves the scene where it is: the
      scene manager's back navigation is not part of this model. */
  function Step(p: Progress, e: SceneEvent, b: string, opens: bool): Progress {
    var r := Handle(p.scene, e, p.rec, b);
    var next := if Transition(p.scene, e).Some? then Transition(p.scene, e).value else p.scene;
    var file := if Saves(p.scene, e) && opens then Some(SaveLog(r)) else p.file;
    var entered := if Transition(p.scene, e) == Some(IdCard) then Merge(r, Opened(file)) else r;
    Progress(next, entered, file)
  }

  /** Opening the card from the main menu shows what the file holds: after a
      save of `want` the record becomes `want`, whatever it held; with no file
      it stays as it was. */
  lemma OpenCardLoads(r: Record, want: Record, b: string, opens: bool)
    ensures Step(Progress(MainMenu, r, Some(SaveLog(want))), SceneEvent(Custom, IdCardEvent), b, opens)
              == Progress(IdCard, want, Some(SaveLog(want)))
    ensures Step(Progress(MainMenu, r, None), SceneEvent(Custom, IdCardEvent), b, opens)
              == Progress(IdCard, r, None)
  {
    LoadAfterSave(r, want);
  }

  /** The user confirms one text per entry of `bs`, each with the save event. */
  function Confirm(p: Progress, bs: seq<string>, opens: bool): Progress
    decreases |bs|
  {
    if bs == [] then p
    else Confirm(Step(p, SceneEvent(Custom, SaveEvent), bs[0], opens), bs[1..], opens)
  }

  /** Once the chain has left the input scenes, further confirmations change nothing. */
  lemma {:induction false} ConfirmOutsideInputs(p: Progress, bs: seq<string>, opens: bool)
    requires !IsInput(p.scene)
    ensures Confirm(p, bs, opens) == p
  {
    if bs != [] {
      var e := SceneEvent(Custom, SaveEvent);
      assert Transition(p.scene, e) == None;
      assert Step(p, e, bs[0], opens) == p;
      ConfirmOutsideInputs(p, bs[1..], opens);
    }
  }

  /** The setup chain: from the name prompt, confirming five texts visits
      name, email, tel, addr and notes in that order, ends at the greeting
      scene with exactly those five texts in the record, and (when the file
      opens) leaves them in the file. Texts confirmed after that change nothing. */
  lemma SetupChain(r: Record, bs: seq<string>, opens: bool, file: Option<seq<Entry>>)
    requires |bs| >= 5
    ensures var want := Record(bs[0], bs[1], bs[2], bs[3], bs[4]);
            Confirm(Progress(InputName, r, file), bs, opens)
              == Progress(GreetingMessage, want, if opens then Some(SaveLog(want)) else file)
  {
    var e := SceneEvent(Custom, SaveEvent);
    var p0 := Progress(InputName, r, file);
    var p1 := Step(p0, e, bs[0], opens);
    var p2 := Step(p1, e, bs[1], opens);
    var p3 := Step(p2, e, bs[2], opens);
    var p4 := Step(p3, e, bs[3], opens);
    var p5 := Step(p4, e, bs[4], opens);
    SetupSteps(r, bs[0], bs[1], bs[2], bs[3], bs[4], opens, file);
    assert Confirm(p0, bs, opens) == Confirm(p1, bs[1..], opens);
    assert Confirm(p1, bs[1..], opens) == Confirm(p2, bs[2..], opens) by { assert bs[1..][1..] == bs[2..]; }
    assert Confirm(p2, bs[2..], opens) == Confirm(p3, bs[3..], opens) by { assert bs[2..][1..] == bs[3..]; }
    assert Confirm(p3, bs[3..], opens) == Confirm(p4, bs[4..], opens) by { assert bs[3..][1..] == bs[4..]; }
    assert Confirm(p4, bs[4..], opens) == Confirm(p5, bs[5..], opens) by { assert bs[4..][1..] == bs[5..]; }
    ConfirmOutsideInputs(p5, bs[5..], opens);
  }

  /** The five steps of the setup chain one by one: from the name prompt,
      confirming `a` to `e` visits email, tel, addr and notes, and ends at the
      greeting scene holding exactly those texts, saved when the file opens. */
  lemma SetupSteps(r: Record, a: string, b: string, c: string, d: string, e: string,
                   opens: bool, file: Option<seq<Entry>>)
    ensures var save := SceneEvent(Custom, SaveEvent);
            var p1 := Step(Progress(InputName, r, file), save, a, opens);
            var p2 := Step(p1, save, b, opens);
            var p3 := Step(p2, save, c, opens);
            var p4 := Step(p3, save, d, opens);
            && p1 == Progress(InputEmail, r.(name := a), file)
            && p2 == Progress(InputTel, r.(name := a, email := b), file)
            && p3 == Progress(InputAddr, r.(name := a, email := b, tel := c), file)
            && p4 == Progress(InputNotes, r.(name := a, email := b, tel := c, addr := d), file)
            && Step(p4, save, e, opens) == Progress(GreetingMessage, Record(a, b, c, d, e),
                                                   if opens then Some(SaveLog(Record(a, b, c, d, e))) else file)
  {
  }

  /** Only the notes step saves, and what it saves already holds the notes
      just entered, alongside the other four fields as they were. */
  lemma NotesSaveIncludesNotes(s: Scene, e: SceneEvent, r: Record, b: string)
    requires Saves(s, e)
    ensures SaveLog(Handle(s, e, r, b)) == SaveLog(r.(notes := b))
  {
    assert Handle(s, e, r, b) == r.(notes := b) by {
      RecordExtensionality(Handle(s, e, r, b), r.(notes := b));
    }
  }
}
