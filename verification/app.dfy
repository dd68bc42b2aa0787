/**
 * The view as driven by the connection: `App` renders whatever snapshot the
 * plugin connection currently holds.
 */
module App {
  import opened Wrappers
  import opened Snapshot
  import opened Connection
  import opened Widgets

  /** The pad and knob faces shown in configuration `c`. */
  function Faces(c: Config): Option<BindingsView> {
    Bindings(c.snapshot)
  }

  /**
   * A message that parses to `s` decides the faces alone: nothing of an
   * earlier snapshot shows through, even where `s` has fewer controls.
   */
  lemma FacesFollowLatestMessage(c: Config, es: seq<Event>, s: State)
    requires es != [] && es[|es| - 1] == OnMessage(Parsed(Some(s)))
    ensures Faces(Run(c, es)) == Bindings(Some(s))
    ensures Faces(Run(c, es)).Some?
    ensures |Faces(Run(c, es)).value.pads| == |s.pads|
    ensures |Faces(Run(c, es)).value.knobs| == |s.knobs|
  {
    RunSnapshotIsLastWrite(c, es, |es| - 1);
  }

  /**
   * After an unparsable message the faces of the previous snapshot stay up;
   * the close event that follows takes them down.
   */
  lemma FacesAfterUnparsable(c: Config)
    ensures Faces(Step(c, OnMessage(Unparsable))) == Faces(c)
    ensures Faces(Run(c, [OnMessage(Unparsable), OnClose])).None?
  {
    UnparsableThenClose(c);
  }

  /** After an error or close event nothing is shown, whatever came before. */
  lemma NoFacesAfterErrorOrClose(c: Config, es: seq<Event>)
    requires es != [] && (es[|es| - 1] == OnError || es[|es| - 1] == OnClose)
    ensures Faces(Run(c, es)).None?
  {
    RunSnapshotIsLastWrite(c, es, |es| - 1);
  }
}
