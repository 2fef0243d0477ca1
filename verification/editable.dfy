/** The inline editors used on the public page: a text element that an admin
    can click to edit in place, and an image whose URL an admin can replace. */
module Editable {
  import opened Wrappers
  import opened Text

  // ---------------------------------------------------------------------------
  // EditableText

  /** The component's props (`isAdmin`, `textarea`, `value`) and its state
      (`isEditing`, and the draft `currentValue`). */
  datatype TextWidget = TextWidget(
    isAdmin: bool, textarea: bool, value: string,
    isEditing: bool, draft: string)

  /** What can happen to the component: a click on the displayed text, typing
      into the editor, the editor losing focus, a key press in the editor, or
      the parent passing a new `value`. */
  datatype TextEvent = Click | Type(text: string) | Blur | KeyDown(key: string) | NewValue(v: string)

  /** The component after an event, and the value handed to `onChange`, if any. */
  datatype Reaction = Reaction(widget: TextWidget, committed: Option<string>)

  /** A freshly mounted component shows `value` and is not editing. */
  function Mount(isAdmin: bool, textarea: bool, value: string): (w: TextWidget)
    ensures !w.isEditing && w.draft == value
  {
    TextWidget(isAdmin, textarea, value, false, value)
  }

  /** The editor is on screen: only an admin's component in editing mode
      renders an input or textarea, so only then do typing, blur and keys
      reach it. */
  predicate EditorShown(w: TextWidget) {
    w.isAdmin && w.isEditing
  }

  /** Leave editing mode and commit the draft (`handleBlur`). */
  function Commit(w: TextWidget): Reaction {
    Reaction(w.(isEditing := false), Some(w.draft))
  }

  function TextStep(w: TextWidget, e: TextEvent): (r: Reaction)
    ensures r.committed.Some? <==>
              EditorShown(w) && (e == Blur || (e == KeyDown("Enter") && !w.textarea))
    ensures r.committed.Some? ==> r.committed.value == w.draft && !r.widget.isEditing
    ensures r.widget.isAdmin == w.isAdmin && r.widget.textarea == w.textarea
    ensures !w.isAdmin ==> !r.widget.isEditing || w.isEditing
    ensures e.Click? ==> r.widget == (if w.isAdmin then w.(isEditing := true) else w)
    ensures e.Type? ==> r.widget == (if EditorShown(w) then w.(draft := e.text) else w)
    ensures (e.Blur? || e.KeyDown?) ==>
              r.widget == (if r.committed.Some? then w.(isEditing := false) else w)
    ensures e.NewValue? ==>
              r.widget == (if e.v != w.value then w.(value := e.v, draft := e.v) else w)
  {
    match e
    case Click =>
      // The displayed text carries the click handler only for an admin; while
      // editing, the editor replaces it and the click is the editor's own.
      Reaction(if w.isAdmin && !w.isEditing then w.(isEditing := true) else w, None)
    case Type(t) =>
      Reaction(if EditorShown(w) then w.(draft := t) else w, None)
    case Blur =>
      if EditorShown(w) then Commit(w) else Reaction(w, None)
    case KeyDown(k) =>
      // Only the single-line input listens for keys; the textarea lets Enter
      // insert a line break.
      if EditorShown(w) && k == "Enter" && !w.textarea then Commit(w) else Reaction(w, None)
    case NewValue(v) =>
      // The draft follows the prop only when the prop actually changes.
      Reaction(if v != w.value then w.(value := v, draft := v) else w, None)
  }

  /** The component after a sequence of events, with every committed value in order. */
  function TextRun(w: TextWidget, es: seq<TextEvent>): (r: (TextWidget, seq<string>))
    decreases |es|
  {
    if |es| == 0 then (w, [])
    else
      var first := TextStep(w, es[0]);
      var rest := TextRun(first.widget, es[1..]);
      (rest.0, (if first.committed.Some? then [first.committed.value] else []) + rest.1)
  }

  /** For a visitor, the element is plain text: whatever happens, it never
      enters editing mode and never reports a change. */
  lemma {:induction false} VisitorNeverEdits(w: TextWidget, es: seq<TextEvent>)
    requires !w.isAdmin && !w.isEditing
    ensures !TextRun(w, es).0.isEditing
    ensures TextRun(w, es).1 == []
    decreases |es|
  {
    if |es| > 0 {
      VisitorNeverEdits(TextStep(w, es[0]).widget, es[1..]);
    }
  }

  /** In a textarea, key presses never commit: a run of typing and key
      presses reports nothing and leaves the editor open. */
  lemma {:induction false} TextareaKeysNeverCommit(w: TextWidget, es: seq<TextEvent>)
    requires w.textarea && EditorShown(w)
    requires forall i :: 0 <= i < |es| ==> es[i].KeyDown? || es[i].Type?
    ensures TextRun(w, es).1 == []
    ensures TextRun(w, es).0.isEditing
    decreases |es|
  {
    if |es| > 0 {
      TextareaKeysNeverCommit(TextStep(w, es[0]).widget, es[1..]);
    }
  }

  /** An admin's edit session: click, type, then leave by blur (or by Enter
      in a single-line editor) commits exactly once, with the last text typed. */
  lemma EditSessionCommitsOnce(w: TextWidget, typed: seq<string>, leave: TextEvent)
    requires w.isAdmin && !w.isEditing && |typed| > 0
    requires leave == Blur || (leave == KeyDown("Enter") && !w.textarea)
    ensures TextRun(w, [Click] + Typing(typed) + [leave]).1 == [typed[|typed| - 1]]
    ensures !TextRun(w, [Click] + Typing(typed) + [leave]).0.isEditing
  {
    var w1 := w.(isEditing := true);
    TypingRun(w1, typed, leave);
    assert ([Click] + Typing(typed) + [leave])[1..] == Typing(typed) + [leave];
  }

  /** One keystroke event per text. */
  function Typing(ts: seq<string>): (es: seq<TextEvent>)
    ensures |es| == |ts|
    ensures forall i :: 0 <= i < |ts| ==> es[i] == Type(ts[i])
  {
    if |ts| == 0 then [] else [Type(ts[0])] + Typing(ts[1..])
  }

  /** Typing inside an open editor only moves the draft; the leave event then
      commits the last text. */
  lemma {:induction false} TypingRun(w: TextWidget, ts: seq<string>, leave: TextEvent)
    requires EditorShown(w) && |ts| > 0
    requires leave == Blur || (leave == KeyDown("Enter") && !w.textarea)
    ensures TextRun(w, Typing(ts) + [leave]).1 == [ts[|ts| - 1]]
    ensures !TextRun(w, Typing(ts) + [leave]).0.isEditing
    decreases |ts|
  {
    var es := Typing(ts) + [leave];
    assert es[0] == Type(ts[0]);
    var w1 := w.(draft := ts[0]);
    if |ts| == 1 {
      assert es[1..] == [leave];
      RunOne(w1, leave);
    } else {
      assert es[1..] == Typing(ts[1..]) + [leave];
      TypingRun(w1, ts[1..], leave);
    }
  }

  /** A run of one event is that event's step. */
  lemma RunOne(w: TextWidget, e: TextEvent)
    ensures TextRun(w, [e]).0 == TextStep(w, e).widget
    ensures TextRun(w, [e]).1 == (if TextStep(w, e).committed.Some? then [TextStep(w, e).committed.value] else [])
  {
    var es := [e];
    assert es[0] == e;
    assert es[1..] == [];
  }

  // ---------------------------------------------------------------------------
  // EditableImage

  /** A click on the image: a visitor's click does nothing; an admin is asked
      for a new URL (`answer` is `None` when the prompt is cancelled), and a
      non-blank answer is committed exactly as typed, untrimmed. */
  function ImageClick(isAdmin: bool, answer: Option<string>): (committed: Option<string>)
    ensures !isAdmin ==> committed.None?
    ensures committed.Some? <==> isAdmin && answer.Some? && HasVisibleChar(answer.value)
    ensures committed.Some? ==> committed == answer
  {
    if !isAdmin then None
    else match answer
      case None => None
      case Some(u) =>
        TrimEmptyIffBlank(u);
        if u != "" && Trim(u) != "" then Some(u) else None
  }
}
