/** The ID card screen: which elements the card scene adds to its widget, and where. */
module Layout {
  import opened Records

  datatype Font = Primary | Secondary

  /** A widget element: a one-line string, or a scrollable text box of the given size. */
  datatype Element =
    | Text(x: int, y: int, font: Font, text: string)
    | Scroll(x: int, y: int, width: int, height: int, text: string)

  /** The title, always the first element. */
  const Title: Element := Text(90, 5, Primary, "ID Card")

  const FirstRowY: int := 20
  const RowStep: int := 10
  const LabelX: int := 0
  const ValueX: int := 26
  /** The notes box starts this far above its label's line. */
  const ScrollRaise: int := 5
  const ScrollWidth: int := 100
  const ScrollHeight: int := 5

  function Label(f: Field): string {
    match f
    case Name => "Name:"
    case Email => "Email:"
    case Tel => "Tel:"
    case Addr => "Addr:"
    case Notes => "Notes:"
  }

  /** The fields shown as one label/value line each, in screen order; the
      notes get a scroll box instead. */
  const LineFields: seq<Field> := [Name, Email, Tel, Addr]

  /** How many of the first `k` line fields are non-empty in `r`. */
  function Count(r: Record, k: nat): (n: nat)
    requires k <= |LineFields|
    ensures n <= k
  {
    if k == 0 then 0 else Count(r, k - 1) + (if Get(r, LineFields[k - 1]) == "" then 0 else 1)
  }

  /** The height of the line that line field `k` gets when it is shown. */
  function LineY(r: Record, k: nat): int
    requires k <= |LineFields|
  {
    FirstRowY + RowStep * Count(r, k)
  }

  /** The line for field `f` at height `y`: its label and its value, or nothing when it is empty. */
  function Row(r: Record, f: Field, y: int): seq<Element> {
    if Get(r, f) == "" then []
    else [Text(LabelX, y, Secondary, Label(f)), Text(ValueX, y, Secondary, Get(r, f))]
  }

  /** The lines of the first `k` line fields, each shown one below the last one shown. */
  function Lines(r: Record, k: nat): (es: seq<Element>)
    requires k <= |LineFields|
    ensures |es| == 2 * Count(r, k)
  {
    if k == 0 then [] else Lines(r, k - 1) + Row(r, LineFields[k - 1], LineY(r, k - 1))
  }

  /** The notes label at `y` and the notes box just above it, or nothing when notes are empty. */
  function NotesPart(r: Record, y: int): seq<Element> {
    if r.notes == "" then []
    else [Text(LabelX, y, Secondary, Label(Notes)), Scroll(ValueX, y - ScrollRaise, ScrollWidth, ScrollHeight, r.notes)]
  }

  /** The whole card for record `r`. */
  function CardLayout(r: Record): seq<Element> {
    [Title] + Lines(r, |LineFields|) + NotesPart(r, LineY(r, |LineFields|))
  }

  /** One step of laying out the card: when the elements so far are the
      title and the lines of the first `k` line fields, with `y0` the next
      line's height, then adding the label and value of field `k` at `y0` when
      the value is non-empty, and stepping the height by 10 only then, gives
      the title and the lines of the first `k + 1` line fields. */
  lemma CardLine(r: Record, k: nat, before: seq<Element>, y0: int, caption: string, value: string,
                 after: seq<Element>, y1: int)
    requires k < |LineFields|
    requires before == [Title] + Lines(r, k) && y0 == LineY(r, k)
    requires caption == Label(LineFields[k]) && value == Get(r, LineFields[k])
    requires after == if value == "" then before
                       else before + [Text(LabelX, y0, Secondary, caption), Text(ValueX, y0, Secondary, value)]
    requires y1 == if value == "" then y0 else y0 + RowStep
    ensures after == [Title] + Lines(r, k + 1) && y1 == LineY(r, k + 1)
  {
  }

  /** The last step of laying out the card: after the title and all four
      lines, the notes label and box (when the notes are non-empty) complete it. */
  lemma CardEnd(r: Record, before: seq<Element>, y: int, notes: string, after: seq<Element>)
    requires before == [Title] + Lines(r, |LineFields|) && y == LineY(r, |LineFields|)
    requires notes == r.notes
    requires after == if notes == "" then before
                      else before + [Text(LabelX, y, Secondary, Label(Notes)), Scroll(ValueX, y - ScrollRaise, ScrollWidth, ScrollHeight, notes)]
    ensures after == CardLayout(r)
  {
  }

  /** Lines already laid out keep their place when later fields are added. */
  lemma {:induction false} LinesPrefix(r: Record, j: nat, k: nat)
    requires j <= k <= |LineFields|
    ensures Lines(r, j) <= Lines(r, k)
  {
    if j < k {
      LinesPrefix(r, j, k - 1);
    }
  }

  /** A non-empty line field `i` has its label and value at positions 2c and
      2c + 1 of the lines, at height 20 + 10c, where c counts the non-empty
      line fields before it. */
  lemma RowAt(r: Record, i: nat)
    requires i < |LineFields| && Get(r, LineFields[i]) != ""
    ensures 2 * Count(r, i) + 1 < |Lines(r, |LineFields|)|
    ensures Lines(r, |LineFields|)[2 * Count(r, i)] ==
              Text(LabelX, FirstRowY + RowStep * Count(r, i), Secondary, Label(LineFields[i]))
    ensures Lines(r, |LineFields|)[2 * Count(r, i) + 1] ==
              Text(ValueX, FirstRowY + RowStep * Count(r, i), Secondary, Get(r, LineFields[i]))
  {
    var c := Count(r, i);
    var row := Row(r, LineFields[i], LineY(r, i));
    LinesPrefix(r, i + 1, |LineFields|);
    assert Lines(r, i + 1) == Lines(r, i) + row;
    assert |Lines(r, i)| == 2 * c;
    assert Lines(r, |LineFields|)[2 * c] == Lines(r, i + 1)[2 * c] == row[0];
    assert Lines(r, |LineFields|)[2 * c + 1] == Lines(r, i + 1)[2 * c + 1] == row[1];
  }

  /** Every label-column element of the lines is the label of a non-empty line field. */
  lemma {:induction false} LineLabels(r: Record, k: nat, e: Element)
    requires k <= |LineFields|
    requires e in Lines(r, k) && e.x == LabelX
    ensures exists i :: 0 <= i < k && Get(r, LineFields[i]) != "" && e == Text(LabelX, e.y, Secondary, Label(LineFields[i]))
  {
    var last := Row(r, LineFields[k - 1], LineY(r, k - 1));
    if e in last {
      assert e == Text(LabelX, e.y, Secondary, Label(LineFields[k - 1]));
    } else {
      assert e in Lines(r, k - 1);
      LineLabels(r, k - 1, e);
    }
  }

  /** The lines are made of one-line strings only. */
  lemma {:induction false} LinesAreText(r: Record, k: nat, e: Element)
    requires k <= |LineFields|
    requires e in Lines(r, k)
    ensures e.Text?
  {
    if e !in Row(r, LineFields[k - 1], LineY(r, k - 1)) {
      LinesAreText(r, k - 1, e);
    }
  }

  /** Card layout, for each of name, email, tel and addr: when the field is
      non-empty its label and value sit at y = 20 + 10c, right after the title
      and the c earlier lines, where c counts the non-empty fields before it. */
  lemma CardRowPlacement(r: Record, i: nat)
    requires i < |LineFields| && Get(r, LineFields[i]) != ""
    ensures var c := Count(r, i);
            && 2 * c + 2 < |CardLayout(r)|
            && CardLayout(r)[2 * c + 1] == Text(0, 20 + 10 * c, Secondary, Label(LineFields[i]))
            && CardLayout(r)[2 * c + 2] == Text(26, 20 + 10 * c, Secondary, Get(r, LineFields[i]))
  {
    RowAt(r, i);
  }

  /** An empty field among name, email, tel and addr leaves no label on the card. */
  lemma CardOmitsEmptyLine(r: Record, i: nat, e: Element)
    requires i < |LineFields| && Get(r, LineFields[i]) == ""
    requires e in CardLayout(r) && e.x == LabelX
    ensures e.text != Label(LineFields[i])
  {
    if e in Lines(r, |LineFields|) {
      LineLabels(r, |LineFields|, e);
    } else {
      assert e in [Title] || e in NotesPart(r, LineY(r, |LineFields|));
    }
  }

  /** The title comes first; the card holds the title, two elements per
      non-empty line field, and two more when the notes are non-empty. */
  lemma CardShape(r: Record)
    ensures CardLayout(r)[0] == Text(90, 5, Primary, "ID Card")
    ensures |CardLayout(r)| == 1 + 2 * Count(r, |LineFields|) + (if r.notes == "" then 0 else 2)
  {
  }

  /** Non-empty notes end the card with their label at the next line's height
      and a scroll box 5 above it; empty notes add no scroll box at all. */
  lemma CardNotes(r: Record)
    ensures var y := 20 + 10 * Count(r, |LineFields|);
            var n := |CardLayout(r)|;
            r.notes != "" ==>
              && n >= 3
              && CardLayout(r)[n - 2] == Text(0, y, Secondary, "Notes:")
              && CardLayout(r)[n - 1] == Scroll(26, y - 5, 100, 5, r.notes)
    ensures r.notes == "" ==> forall e :: e in CardLayout(r) ==> e.Text?
  {
    if r.notes == "" {
      forall e | e in CardLayout(r) ensures e.Text? {
        if e in Lines(r, |LineFields|) {
          LinesAreText(r, |LineFields|, e);
        }
      }
    }
  }
}
