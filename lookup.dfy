/**
 * The two lookups over a resource's declared states: by id (first match,
 * ResourceImpl.stateForId) and by label (last match, stateIdForLabel).
 * These functions specify the looping methods of ResourceImpl and
 * WildebeestApiImpl.
 */
module Lookup {
  import opened Wrappers
  import opened Model

  /** No two declared states share an id. */
  ghost predicate UniqueIds(states: seq<State>) {
    forall i, j :: 0 <= i < j < |states| ==> states[i].stateId != states[j].stateId
  }

  /** No two declared states share a label. */
  ghost predicate UniqueLabels(states: seq<State>) {
    forall i, j :: 0 <= i < j < |states| && states[i].stateLabel.Some? ==> states[i].stateLabel != states[j].stateLabel
  }

  /** `states[i]` is the first declared state whose id is `id`. */
  ghost predicate FirstAt(states: seq<State>, i: int, id: Uuid) {
    && 0 <= i < |states|
    && states[i].stateId == id
    && forall j :: 0 <= j < i ==> states[j].stateId != id
  }

  /** `states[i]` is the last declared state labelled `wanted`. */
  ghost predicate LastAt(states: seq<State>, i: int, wanted: string) {
    && 0 <= i < |states|
    && states[i].stateLabel == Some(wanted)
    && forall j :: i < j < |states| ==> states[j].stateLabel != Some(wanted)
  }

  /** Some declared state carries `id`. */
  ghost predicate Declared(states: seq<State>, id: Uuid) {
    exists i :: 0 <= i < |states| && states[i].stateId == id
  }

  /** The first declared state whose id is `id`, or None when no state has it. */
  function FirstWithId(states: seq<State>, id: Uuid): (r: Option<State>)
    ensures r.None? <==> forall i :: 0 <= i < |states| ==> states[i].stateId != id
    ensures r.Some? ==> r.value in states && r.value.stateId == id
    ensures forall i :: FirstAt(states, i, id) ==> r == Some(states[i])
  {
    if states == [] then None
    else if states[0].stateId == id then Some(states[0])
    else FirstWithId(states[1..], id)
  }

  /** The id of the last declared state labelled `wanted`, or None when no state has that label. */
  function IdForLabel(states: seq<State>, wanted: string): (r: Option<Uuid>)
    ensures r.None? <==> forall i :: 0 <= i < |states| ==> states[i].stateLabel != Some(wanted)
    ensures r.Some? ==> exists i :: 0 <= i < |states| && states[i].stateLabel == Some(wanted) && states[i].stateId == r.value
  {
    if states == [] then None
    else if states[|states| - 1].stateLabel == Some(wanted) then Some(states[|states| - 1].stateId)
    else IdForLabel(states[..|states| - 1], wanted)
  }

  /** The label lookup answers with the id of the last state carrying the label. */
  lemma {:induction false} IdForLabelIsLastMatch(states: seq<State>, wanted: string, i: int)
    requires LastAt(states, i, wanted)
    ensures IdForLabel(states, wanted) == Some(states[i].stateId)
    decreases |states|
  {
    var n := |states|;
    if i < n - 1 {
      assert states[n - 1].stateLabel != Some(wanted);
      IdForLabelIsLastMatch(states[..n - 1], wanted, i);
    }
  }

  /** Round trip: with unique ids, looking a declared state up by its own id finds that state. */
  lemma {:induction false} StateForIdRoundTrip(states: seq<State>, s: State)
    requires UniqueIds(states)
    requires s in states
    ensures FirstWithId(states, s.stateId) == Some(s)
  {
    var k :| 0 <= k < |states| && states[k] == s;
    assert FirstAt(states, k, s.stateId);
  }

  /** With unique labels, looking a labelled state up by its label finds that state's id. */
  lemma {:induction false} LabelRoundTrip(states: seq<State>, s: State)
    requires UniqueLabels(states)
    requires s in states && s.stateLabel.Some?
    ensures IdForLabel(states, s.stateLabel.value) == Some(s.stateId)
  {
    var k :| 0 <= k < |states| && states[k] == s;
    IdForLabelIsLastMatch(states, s.stateLabel.value, k);
  }

  /**
   * When two states share a label, the label resolves to the one declared
   * last, whereas the id lookup resolves a shared id to the one declared first.
   */
  lemma LastLabelFirstId()
    ensures var first := State(1, Some("Created"), []);
            var second := State(2, Some("Created"), []);
            IdForLabel([first, second], "Created") == Some(2)
    ensures var first := State(1, Some("Created"), []);
            var second := State(1, Some("Loaded"), []);
            FirstWithId([first, second], 1) == Some(first)
  {
  }
}
