/** The booking flow of components/QuestBooking.tsx: a three-step state
    machine (choose a path, choose a date, confirm) over the `step` and
    `selectedPathId` state, and which panel each state shows. */
module QuestBooking {
  import opened Optional

  const SELECT_PATH: int := 0
  const SELECT_DATE: int := 1
  const CONFIRM: int := 2

  /** Number of day buttons in the date grid. */
  const DAYS_IN_GRID: int := 31

  datatype Path = Path(id: string, title: string, subtitle: string, image: string, color: string)

  const PATHS: seq<Path> := [
    Path("deep-woods", "Deep Woods", "Disconnect in the ancient pines.",
         "https://picsum.photos/seed/forestfog/1000/1600", "from-green-900/80 to-stone-900/90"),
    Path("river-side", "River Side", "Find flow by the rushing water.",
         "https://picsum.photos/seed/riverrock/1000/1600", "from-blue-900/80 to-stone-900/90")
  ]

  /** No two paths share an id. */
  predicate DistinctIds(paths: seq<Path>)
  {
    forall i, j :: 0 <= i < j < |paths| ==> paths[i].id != paths[j].id
  }

  /** `paths.find(p => p.id === id)`: the first path with that id, none for a
      null id or an id no path has. */
  function FindPath(paths: seq<Path>, id: Option<string>): (r: Option<Path>)
    ensures r.Some? ==> id.Some? && r.value in paths && r.value.id == id.value
    ensures r.None? ==> id.None? || forall k :: 0 <= k < |paths| ==> paths[k].id != id.value
    ensures r.Some? ==> exists k :: 0 <= k < |paths| && paths[k] == r.value
                         && forall j :: 0 <= j < k ==> paths[j].id != id.value
  {
    if id.None? || paths == [] then None
    else if paths[0].id == id.value then Some(paths[0])
    else
      var r := FindPath(paths[1..], id);
      if r.Some? then
        var k :| 0 <= k < |paths[1..]| && paths[1..][k] == r.value
                 && forall j :: 0 <= j < k ==> paths[1..][j].id != id.value;
        assert paths[k + 1] == r.value;
        r
      else r
  }

  /** The invariant of the flow: the step is one of the three, and a path is
      selected exactly when the step is past the first. */
  predicate ValidState(step: int, selectedPathId: Option<string>)
    ensures ValidState(step, selectedPathId) && selectedPathId.Some? ==> step == SELECT_DATE || step == CONFIRM
    ensures ValidState(step, selectedPathId) && selectedPathId.None? ==> step == SELECT_PATH
  {
    step in {SELECT_PATH, SELECT_DATE, CONFIRM} && (step == SELECT_PATH <==> selectedPathId.None?)
  }

  /** The path cards show on the first step, so only while nothing is selected. */
  predicate ShowsPathCards(step: int)
    ensures ShowsPathCards(step) ==> forall id :: ValidState(step, id) ==> id.None?
  {
    step == SELECT_PATH
  }

  /** The booking flow shows when the selected path exists and the step is past the first. */
  predicate ShowsBookingFlow(step: int, selectedPathId: Option<string>)
    ensures ShowsBookingFlow(step, selectedPathId) ==>
      selectedPathId.Some? && selectedPathId.value in {"deep-woods", "river-side"} && !ShowsPathCards(step)
  {
    FindPath(PATHS, selectedPathId).Some? && step != SELECT_PATH
  }

  /** The date grid shows inside the booking flow on the date step. */
  predicate ShowsDateGrid(step: int, selectedPathId: Option<string>)
    ensures ShowsDateGrid(step, selectedPathId) ==> selectedPathId.Some? && !ShowsPathCards(step)
  {
    ShowsBookingFlow(step, selectedPathId) && step == SELECT_DATE
  }

  /** The confirmation shows inside the booking flow on the last step. */
  predicate ShowsConfirmation(step: int, selectedPathId: Option<string>)
    ensures ShowsConfirmation(step, selectedPathId) ==>
      selectedPathId.Some? && !ShowsPathCards(step) && !ShowsDateGrid(step, selectedPathId)
  {
    ShowsBookingFlow(step, selectedPathId) && step == CONFIRM
  }

  /** The two paths have distinct ids, so the lookup finds the one path with
      the selected id, and nothing for an unknown or null id. */
  lemma SelectedPathUnique(id: Option<string>)
    ensures DistinctIds(PATHS)
    ensures forall k :: 0 <= k < |PATHS| && id == Some(PATHS[k].id) ==> FindPath(PATHS, id) == Some(PATHS[k])
    ensures id.None? || (id.value != "deep-woods" && id.value != "river-side") ==> FindPath(PATHS, id) == None
  {
  }

  /** In a valid state whose selection names a known path, exactly one of the
      path cards, the date grid and the confirmation is shown. */
  lemma ExactlyOnePanel(step: int, selectedPathId: Option<string>)
    requires ValidState(step, selectedPathId)
    requires selectedPathId.Some? ==> FindPath(PATHS, selectedPathId).Some?
    ensures ShowsPathCards(step) <==> step == SELECT_PATH
    ensures ShowsDateGrid(step, selectedPathId) <==> step == SELECT_DATE
    ensures ShowsConfirmation(step, selectedPathId) <==> step == CONFIRM
    ensures ShowsBookingFlow(step, selectedPathId) <==> !ShowsPathCards(step)
  {
  }

  class Booking {
    var step: int
    var selectedPathId: Option<string>

    /** The flow's invariant, and a selection always names a known path. */
    ghost predicate Valid()
      reads this
    {
      ValidState(step, selectedPathId)
      && (selectedPathId.Some? ==> FindPath(PATHS, selectedPathId).Some?)
    }

    /** `paths.find(...)` on the current selection: a path with the selected
        id, present in every valid state past the first step. */
    function SelectedPath(): (r: Option<Path>)
      reads this
      ensures r.Some? ==> r.value in PATHS && selectedPathId == Some(r.value.id)
      ensures Valid() && step != SELECT_PATH ==> r.Some?
    {
      FindPath(PATHS, selectedPathId)
    }

    /** The first render: the path step, nothing selected. */
    constructor ()
      ensures step == SELECT_PATH && selectedPathId == None
      ensures Valid()
    {
      step := SELECT_PATH;
      selectedPathId := None;
    }

    /** `handleSelect(id)`: select the path and move to the date step. The
        step invariant always holds afterwards; the whole invariant holds
        when the id is a known path's, as it is for every card's click. */
    method HandleSelect(id: string)
      modifies this
      ensures selectedPathId == Some(id) && step == SELECT_DATE
      ensures ValidState(step, selectedPathId)
      ensures FindPath(PATHS, Some(id)).Some? ==> Valid()
    {
      selectedPathId := Some(id);
      step := SELECT_DATE;
    }

    /** `handleBack`: from the date step back to the path step, clearing the
        selection; from the confirmation back to the date step, keeping it;
        on the path step nothing happens. */
    method HandleBack()
      modifies this
      ensures old(step) == SELECT_DATE ==> step == SELECT_PATH && selectedPathId == None
      ensures old(step) == CONFIRM ==> step == SELECT_DATE && selectedPathId == old(selectedPathId)
      ensures old(step) != SELECT_DATE && old(step) != CONFIRM ==>
        step == old(step) && selectedPathId == old(selectedPathId)
      ensures old(Valid()) ==> Valid()
    {
      if step == SELECT_DATE {
        step := SELECT_PATH;
        selectedPathId := None;
      } else if step == CONFIRM {
        step := SELECT_DATE;
      }
    }

    /** A click on day button `day` of the grid: move to the confirmation,
        keeping the selection. The grid is only on screen on the date step,
        where the move keeps the invariant. */
    method ClickDay(day: int)
      requires 0 <= day < DAYS_IN_GRID
      modifies this
      ensures step == CONFIRM && selectedPathId == old(selectedPathId)
      ensures old(Valid()) && old(step) == SELECT_DATE ==> Valid()
    {
      step := CONFIRM;
    }
  }

  /** A click on path card k, which calls `handleSelect` with that card's
      id: the flow moves to the date step with that path selected and
      shown, and exactly the booking-flow panel with the date grid is on
      screen. */
  method ClickPathCard(b: Booking, k: int)
    requires 0 <= k < |PATHS|
    modifies b
    ensures b.step == SELECT_DATE && b.SelectedPath() == Some(PATHS[k])
    ensures b.Valid()
    ensures ShowsDateGrid(b.step, b.selectedPathId) && !ShowsPathCards(b.step)
  {
    SelectedPathUnique(Some(PATHS[k].id));
    b.HandleSelect(PATHS[k].id);
    ExactlyOnePanel(b.step, b.selectedPathId);
  }

  /** Back undoes the step forward: selecting a path and going back restores
      the empty path step, and picking a day and going back restores the date
      step with the same selection. */
  method ForwardThenBack(b: Booking, id: string, day: int)
    requires b.Valid() && b.step == SELECT_PATH
    requires 0 <= day < DAYS_IN_GRID
    modifies b
    ensures b.step == SELECT_PATH && b.selectedPathId == None
  {
    b.HandleSelect(id);
    b.ClickDay(day);
    assert b.step == CONFIRM && b.selectedPathId == Some(id);
    b.HandleBack();
    assert b.step == SELECT_DATE && b.selectedPathId == Some(id);
    b.HandleBack();
  }
}
