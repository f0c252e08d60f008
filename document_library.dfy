/**
 * The upload area of `DocumentLibrary`: one flag, `dragActive`, that the drag
 * handlers raise and lower and that highlights the drop zone. The handlers'
 * `preventDefault`/`stopPropagation` calls and the file handling are not modelled.
 */
module DocumentLibrary {

  /** The new `dragActive` after `handleDrag` sees an event of type `eventType`. */
  function AfterDrag(active: bool, eventType: string): (r: bool)
    ensures eventType == "dragenter" || eventType == "dragover" ==> r
    ensures eventType == "dragleave" ==> !r
    ensures eventType != "dragenter" && eventType != "dragover" && eventType != "dragleave" ==> r == active
  {
    if eventType == "dragenter" || eventType == "dragover" then true
    else if eventType == "dragleave" then false
    else active
  }

  /** An event reaching the zone: one routed to `handleDrag` (by its type), or a drop. */
  datatype ZoneEvent = Drag(eventType: string) | Drop

  /** The events that set the flag whatever it was: enter, over, leave and drop. */
  predicate Decisive(e: ZoneEvent) {
    e.Drop? || e.eventType in {"dragenter", "dragover", "dragleave"}
  }

  /** The value a decisive event sets. */
  function Verdict(e: ZoneEvent): bool {
    e.Drag? && (e.eventType == "dragenter" || e.eventType == "dragover")
  }

  /** The flag after one event: a decisive event sets its verdict, any other leaves the flag alone. */
  function Step(active: bool, e: ZoneEvent): (r: bool)
    ensures Decisive(e) ==> r == Verdict(e)
    ensures !Decisive(e) ==> r == active
  {
    match e
    case Drag(t) => AfterDrag(active, t)
    case Drop => false
  }

  /** The flag after a sequence of events, oldest first: each event acts on the flag the earlier ones left. */
  function Replay(active: bool, events: seq<ZoneEvent>): (r: bool)
    // the flag is the one it started with, or the verdict of one of the events
    ensures r == active || exists i :: 0 <= i < |events| && Decisive(events[i]) && r == Verdict(events[i])
    decreases |events|
  {
    if events == [] then active
    else
      Step(Replay(active, events[..|events| - 1]), events[|events| - 1])
  }

  /**
   * After any run of events the zone is highlighted exactly as the last
   * decisive event says, or as it was when no event was decisive: the
   * flag has no memory beyond the last enter, over, leave or drop.
   */
  lemma {:induction false} ReplayFollowsLastDecisive(active: bool, events: seq<ZoneEvent>)
    ensures (forall i :: 0 <= i < |events| ==> !Decisive(events[i])) ==> Replay(active, events) == active
    ensures forall k :: 0 <= k < |events| && Decisive(events[k])
                        && (forall j :: k < j < |events| ==> !Decisive(events[j]))
                        ==> Replay(active, events) == Verdict(events[k])
    decreases |events|
  {
    if events != [] {
      var n := |events|;
      var prefix := events[..n - 1];
      ReplayFollowsLastDecisive(active, prefix);
      var last := events[n - 1];
      assert Replay(active, events) == Step(Replay(active, prefix), last);
      if Decisive(last) {
        assert Replay(active, events) == Verdict(last);
      } else {
        assert Replay(active, events) == Replay(active, prefix);
        assert forall i :: 0 <= i < n - 1 ==> prefix[i] == events[i];
      }
    }
  }

  /** Any number of `dragover` events leaves the zone highlighted, as one does. */
  lemma {:induction false} DragoverRepeats(active: bool, n: nat)
    ensures Replay(active, seq(n + 1, _ => Drag("dragover"))) == true
  {
    var events := seq(n + 1, _ => Drag("dragover"));
    ReplayFollowsLastDecisive(active, events);
    assert Decisive(events[n]);
  }

  class DropZone {
    /** `dragActive`: the drop zone is highlighted. */
    var dragActive: bool

    /** The component's initial state: not highlighted. */
    constructor()
      ensures !dragActive
    {
      dragActive := false;
    }

    /** `handleDrag`. */
    method HandleDrag(eventType: string)
      modifies this
      ensures dragActive == AfterDrag(old(dragActive), eventType)
    {
      if eventType == "dragenter" || eventType == "dragover" {
        dragActive := true;
      } else if eventType == "dragleave" {
        dragActive := false;
      }
    }

    /** `handleDrop`: the highlight goes, whatever it was. */
    method HandleDrop()
      modifies this
      ensures !dragActive
    {
      dragActive := false;
    }

    /** Routes an event to its handler, as the zone's `onDrag*`/`onDrop` props do. */
    method Handle(e: ZoneEvent)
      modifies this
      ensures dragActive == Step(old(dragActive), e)
    {
      match e
      case Drag(t) => HandleDrag(t);
      case Drop => HandleDrop();
    }
  }
}
