/**
 * The player's input state and the selection / order state machine of
 * src/player.rs (`PlayerState::update_player_action`).
 */
module Player {

  import opened Ops
  import opened Wrappers
  import opened World
  import Seqs

  /** The action the player's last input requests. */
  datatype PlayerAction =
    | None
    | Select(id: WorldId)
    | Move(target: Vec2)
    | FormUp(span: Vec2)
    | Deselect(id: WorldId)

  /** The click test: a press and release closer than `precision` in Manhattan distance. */
  predicate IsClick(press: Vec2, release: Vec2, precision: real)
  {
    Man(Sub(release, press)) < precision
  }

  /** Toggling one id: removed when selected, added otherwise. */
  function Toggle(sel: set<WorldId>, id: WorldId): set<WorldId>
  {
    if id in sel then sel - {id} else sel + {id}
  }

  /** The ctrl-click loop: each id of `ids`, in order, toggled. */
  function ToggleAll(sel: set<WorldId>, ids: seq<WorldId>): set<WorldId>
    decreases |ids|
  {
    if ids == [] then sel else Toggle(ToggleAll(sel, ids[..|ids| - 1]), ids[|ids| - 1])
  }

  /** An id ends up selected exactly when it was selected and hit an even number of times, or not and hit an odd number. */
  lemma {:induction false} ToggleAllParity(sel: set<WorldId>, ids: seq<WorldId>, x: WorldId)
    ensures x in ToggleAll(sel, ids) <==> ((x in sel) != (multiset(ids)[x] % 2 == 1))
    decreases |ids|
  {
    if ids != [] {
      var pre := ids[..|ids| - 1];
      assert ids == pre + [ids[|ids| - 1]];
      ToggleAllParity(sel, pre, x);
    }
  }

  predicate Distinct(ids: seq<WorldId>)
  {
    forall i, j :: 0 <= i < j < |ids| ==> ids[i] != ids[j]
  }

  /**
   * With distinct hits (one id per object under the cursor) ctrl-click is
   * the symmetric difference: hit ids flip, the others stay.
   */
  lemma {:induction false} ToggleAllDistinct(sel: set<WorldId>, ids: seq<WorldId>, x: WorldId)
    requires Distinct(ids)
    ensures x in ToggleAll(sel, ids) <==> ((x in sel) != (x in ids))
    decreases |ids|
  {
    if ids != [] {
      var pre := ids[..|ids| - 1];
      var last := ids[|ids| - 1];
      assert ids == pre + [last];
      assert last !in pre by {
        forall i | 0 <= i < |pre|
          ensures pre[i] != last
        {
          assert pre[i] == ids[i];
        }
      }
      ToggleAllDistinct(sel, pre, x);
    }
  }

  /** Ctrl-clicking the same hits twice restores the selection. */
  lemma ToggleAllTwice(sel: set<WorldId>, ids: seq<WorldId>)
    ensures ToggleAll(ToggleAll(sel, ids), ids) == sel
  {
    forall x | true
      ensures x in ToggleAll(ToggleAll(sel, ids), ids) <==> x in sel
    {
      ToggleAllParity(sel, ids, x);
      ToggleAllParity(ToggleAll(sel, ids), ids, x);
    }
  }

  /** The hits that are containers, in hit order (`drain_filter(is_container)`). */
  function Containers(hits: seq<WorldId>, isContainer: WorldId -> bool): seq<WorldId>
  {
    Seqs.Filter(hits, isContainer)
  }

  /** The hits that are not containers, in hit order (what `drain_filter` leaves). */
  function BoidHits(hits: seq<WorldId>, isContainer: WorldId -> bool): seq<WorldId>
  {
    Seqs.Filter(hits, id => !isContainer(id))
  }

  /** The partition of the hits into containers and boids loses and duplicates nothing. */
  lemma HitsPartition(hits: seq<WorldId>, isContainer: WorldId -> bool)
    ensures multiset(Containers(hits, isContainer)) + multiset(BoidHits(hits, isContainer)) == multiset(hits)
    ensures forall id :: id in Containers(hits, isContainer) <==> id in hits && isContainer(id)
    ensures forall id :: id in BoidHits(hits, isContainer) <==> id in hits && !isContainer(id)
  {
    Seqs.FilterPartition(hits, isContainer, id => !isContainer(id));
  }

  /**
   * The `unwrap` of `get_boid_container` succeeds: when a plain click with a
   * non-empty selection hits a selected boid, the first such boid has a
   * container.
   */
  predicate DrillUpDefined(sel: set<WorldId>, hits: seq<WorldId>, ctrl: bool,
                           isContainer: WorldId -> bool, boidContainer: WorldId -> Option<WorldId>)
  {
    var boids := BoidHits(hits, isContainer);
    var kb := Seqs.Find(boids, id => id in sel);
    !ctrl && hits != [] && sel != {} && kb < |boids| ==> boidContainer(boids[kb]).Some?
  }

  /**
   * The selection after a left click with hits `hits`: toggle with ctrl;
   * otherwise clear on no hit, take the first hit into an empty selection,
   * and else drill up from the first selected boid to its container, drill
   * down from the first selected container to its first hit boid, or move
   * on to the first unselected hit boid.
   */
  function ClickSelection(sel: set<WorldId>, hits: seq<WorldId>, ctrl: bool,
                          isContainer: WorldId -> bool, boidContainer: WorldId -> Option<WorldId>,
                          isBoidOfContainer: (WorldId, WorldId) -> bool): set<WorldId>
    requires DrillUpDefined(sel, hits, ctrl, isContainer, boidContainer)
  {
    if ctrl then ToggleAll(sel, hits)
    else if hits == [] then {}
    else if sel == {} then {hits[0]}
    else
      var containers := Containers(hits, isContainer);
      var boids := BoidHits(hits, isContainer);
      var kb := Seqs.Find(boids, id => id in sel);
      if kb < |boids| then {boidContainer(boids[kb]).value}
      else
        var kc := Seqs.Find(containers, id => id in sel);
        if kc < |containers| then
          var b := Seqs.Find(boids, id => isBoidOfContainer(id, containers[kc]));
          if b < |boids| then {boids[b]} else {}
        else
          var kn := Seqs.Find(boids, id => id !in sel);
          if kn < |boids| then {boids[kn]} else sel
  }

  /** The action after an update: left input keeps it, a right click moves, a right drag forms up, no click clears it. */
  function NextAction(action: PlayerAction, lClick: bool, rClick: bool, r1: Vec2, r2: Vec2, precision: real): PlayerAction
  {
    if lClick then action
    else if rClick then (if IsClick(r1, r2, precision) then Move(r2) else FormUp(Sub(r2, r1)))
    else PlayerAction.None
  }

  /** Ctrl-click toggles every hit; with distinct hits exactly the hit ids flip. */
  lemma CtrlClickToggles(sel: set<WorldId>, hits: seq<WorldId>, isContainer: WorldId -> bool,
                         boidContainer: WorldId -> Option<WorldId>, isBoidOfContainer: (WorldId, WorldId) -> bool)
    requires Distinct(hits)
    ensures forall x ::
      x in ClickSelection(sel, hits, true, isContainer, boidContainer, isBoidOfContainer) <==> ((x in sel) != (x in hits))
  {
    forall x
      ensures x in ToggleAll(sel, hits) <==> ((x in sel) != (x in hits))
    {
      ToggleAllDistinct(sel, hits, x);
    }
  }

  /** A plain click on nothing clears the selection; on something with nothing selected, selects the first hit. */
  lemma PlainClickBasics(sel: set<WorldId>, hits: seq<WorldId>, isContainer: WorldId -> bool,
                         boidContainer: WorldId -> Option<WorldId>, isBoidOfContainer: (WorldId, WorldId) -> bool)
    ensures hits == [] ==> ClickSelection(sel, hits, false, isContainer, boidContainer, isBoidOfContainer) == {}
    ensures hits != [] && sel == {} ==>
      ClickSelection(sel, hits, false, isContainer, boidContainer, isBoidOfContainer) == {hits[0]}
  {
  }

  /**
   * Drill up: when some selected boid is hit, the selection becomes exactly
   * the container of the first hit that is a selected boid.
   */
  lemma ClickDrillsUp(sel: set<WorldId>, hits: seq<WorldId>, isContainer: WorldId -> bool,
                      boidContainer: WorldId -> Option<WorldId>, isBoidOfContainer: (WorldId, WorldId) -> bool)
    requires sel != {} && DrillUpDefined(sel, hits, false, isContainer, boidContainer)
    requires Seqs.Find(hits, id => !isContainer(id) && id in sel) < |hits|
    ensures var j := Seqs.Find(hits, id => !isContainer(id) && id in sel);
      boidContainer(hits[j]).Some?
      && ClickSelection(sel, hits, false, isContainer, boidContainer, isBoidOfContainer)
        == {boidContainer(hits[j]).value}
  {
    Seqs.FindInFilter(hits, id => !isContainer(id), id => id in sel, id => !isContainer(id) && id in sel);
  }

  /**
   * Drill down: when no selected boid but a selected container is hit, the
   * selection becomes the first hit boid of the first such container, or
   * empty when none of the hit boids belongs to it.
   */
  lemma ClickDrillsDown(sel: set<WorldId>, hits: seq<WorldId>, isContainer: WorldId -> bool,
                        boidContainer: WorldId -> Option<WorldId>, isBoidOfContainer: (WorldId, WorldId) -> bool)
    requires sel != {}
    requires Seqs.Find(hits, id => !isContainer(id) && id in sel) == |hits|
    requires Seqs.Find(hits, id => isContainer(id) && id in sel) < |hits|
    ensures DrillUpDefined(sel, hits, false, isContainer, boidContainer)
    ensures var c := hits[Seqs.Find(hits, id => isContainer(id) && id in sel)];
      var b := Seqs.Find(hits, id => !isContainer(id) && isBoidOfContainer(id, c));
      ClickSelection(sel, hits, false, isContainer, boidContainer, isBoidOfContainer)
        == if b < |hits| then {hits[b]} else {}
  {
    Seqs.FindInFilter(hits, id => !isContainer(id), id => id in sel, id => !isContainer(id) && id in sel);
    Seqs.FindInFilter(hits, isContainer, id => id in sel, id => isContainer(id) && id in sel);
    var c := hits[Seqs.Find(hits, id => isContainer(id) && id in sel)];
    Seqs.FindInFilter(hits, id => !isContainer(id), id => isBoidOfContainer(id, c),
                      id => !isContainer(id) && isBoidOfContainer(id, c));
  }

  /**
   * Otherwise the first hit boid becomes the only selection (every hit boid
   * is unselected here, so the "neighbour" search takes the first one); with
   * no hit boid the selection is unchanged.
   */
  lemma ClickMovesToNeighbour(sel: set<WorldId>, hits: seq<WorldId>, isContainer: WorldId -> bool,
                              boidContainer: WorldId -> Option<WorldId>, isBoidOfContainer: (WorldId, WorldId) -> bool)
    requires sel != {} && hits != []
    requires Seqs.Find(hits, id => !isContainer(id) && id in sel) == |hits|
    requires Seqs.Find(hits, id => isContainer(id) && id in sel) == |hits|
    ensures DrillUpDefined(sel, hits, false, isContainer, boidContainer)
    ensures var n := Seqs.Find(hits, id => !isContainer(id));
      ClickSelection(sel, hits, false, isContainer, boidContainer, isBoidOfContainer)
        == if n < |hits| then {hits[n]} else sel
  {
    Seqs.FindInFilter(hits, id => !isContainer(id), id => id in sel, id => !isContainer(id) && id in sel);
    Seqs.FindInFilter(hits, isContainer, id => id in sel, id => isContainer(id) && id in sel);
    Seqs.FindInFilter(hits, id => !isContainer(id), id => id !in sel, id => !isContainer(id) && id !in sel);
    Seqs.FindAgree(hits, id => !isContainer(id) && id !in sel, id => !isContainer(id));
  }

  /** A left press never changes the action; a right click or drag never reaches the selection code. */
  lemma ActionRules(action: PlayerAction, lClick: bool, rClick: bool, r1: Vec2, r2: Vec2, precision: real)
    ensures lClick ==> NextAction(action, lClick, rClick, r1, r2, precision) == action
    ensures !lClick && rClick && Man(Sub(r2, r1)) < precision ==>
      NextAction(action, lClick, rClick, r1, r2, precision) == Move(r2)
    ensures !lClick && rClick && Man(Sub(r2, r1)) >= precision ==>
      NextAction(action, lClick, rClick, r1, r2, precision) == FormUp(Sub(r2, r1))
    ensures !lClick && !rClick ==> NextAction(action, lClick, rClick, r1, r2, precision) == PlayerAction.None
  {
  }

  /** `PlayerState`: the input state the event loop fills in, the selection and the pending action. */
  class PlayerState {
    var pos: Vec2
    var left: bool
    var right: bool
    var up: bool
    var down: bool
    var ctrlPressed: bool
    var shiftPressed: bool
    var zoom: real
    var toZoom: real
    var l1: Vec2
    var l2: Vec2
    var r1: Vec2
    var r2: Vec2
    var lPressed: bool
    var rPressed: bool
    var lClick: bool
    var rClick: bool
    var selected: set<WorldId>
    var action: PlayerAction

    /** `PlayerState::default()`. */
    constructor ()
      ensures pos == Zero && !left && !right && !up && !down && !ctrlPressed && !shiftPressed
      ensures zoom == 0.0 && toZoom == 0.0
      ensures l1 == Zero && l2 == Zero && r1 == Zero && r2 == Zero
      ensures !lPressed && !rPressed && !lClick && !rClick
      ensures selected == {} && action == PlayerAction.None
    {
      pos := Zero;
      left, right, up, down := false, false, false, false;
      ctrlPressed, shiftPressed := false, false;
      zoom, toZoom := 0.0, 0.0;
      l1, l2, r1, r2 := Zero, Zero, Zero, Zero;
      lPressed, rPressed, lClick, rClick := false, false, false, false;
      selected := {};
      action := PlayerAction.None;
    }

    /**
     * `update_player_action`: `hits` are the ids at `l2` in the world's
     * order, `clickPrecision` is `CLICK_PRECISION`, and the three functions
     * stand for `is_container`, `get_boid_container` and
     * `is_boid_of_container`. A left click edits the selection, a left drag
     * changes nothing, and otherwise the action is set from the right button.
     */
    method UpdatePlayerAction(hits: seq<WorldId>, clickPrecision: real,
                              isContainer: WorldId -> bool, boidContainer: WorldId -> Option<WorldId>,
                              isBoidOfContainer: (WorldId, WorldId) -> bool)
      requires lClick && IsClick(l1, l2, clickPrecision) ==>
        DrillUpDefined(selected, hits, ctrlPressed, isContainer, boidContainer)
      modifies this`selected, this`action
      ensures selected == if old(lClick && IsClick(l1, l2, clickPrecision))
        then ClickSelection(old(selected), hits, ctrlPressed, isContainer, boidContainer, isBoidOfContainer)
        else old(selected)
      ensures action == NextAction(old(action), lClick, rClick, r1, r2, clickPrecision)
    {
      if lClick {
        if IsClick(l1, l2, clickPrecision) {
          if ctrlPressed {
            var k := 0;
            while k < |hits|
              invariant 0 <= k <= |hits|
              invariant selected == ToggleAll(old(selected), hits[..k])
              invariant action == old(action)
            {
              var id := hits[k];
              if id in selected {
                selected := selected - {id};
              } else {
                selected := selected + {id};
              }
              assert hits[..k + 1][..k] == hits[..k];
              k := k + 1;
            }
            assert hits[..|hits|] == hits;
          } else if hits == [] {
            selected := {};
          } else if selected == {} {
            selected := {hits[0]};
          } else {
            var containers := Seqs.Filter(hits, isContainer);
            var boids := Seqs.Filter(hits, id => !isContainer(id));
            var sel := selected;
            // select the container of a previously selected boid
            var i := 0;
            while i < |boids|
              invariant 0 <= i <= |boids|
              invariant selected == sel
              invariant forall j :: 0 <= j < i ==> boids[j] !in sel
            {
              if boids[i] in selected {
                Seqs.FindUnique(boids, id => id in sel, i);
                selected := {boidContainer(boids[i]).value};
                return;
              }
              i := i + 1;
            }
            Seqs.FindUnique(boids, id => id in sel, |boids|);
            // or select a boid of a previously selected container
            var c := 0;
            while c < |containers|
              invariant 0 <= c <= |containers|
              invariant selected == sel
              invariant forall j :: 0 <= j < c ==> containers[j] !in sel
            {
              var container := containers[c];
              var b := Seqs.Find(boids, id => isBoidOfContainer(id, container));
              if container in selected {
                Seqs.FindUnique(containers, id => id in sel, c);
                selected := {};
                if b < |boids| {
                  selected := selected + {boids[b]};
                }
                return;
              }
              c := c + 1;
            }
            Seqs.FindUnique(containers, id => id in sel, |containers|);
            // or move on to a neighbouring boid
            var n := Seqs.Find(boids, id => id !in sel);
            if n < |boids| {
              selected := {boids[n]};
            }
          }
        }
      } else if rClick {
        if IsClick(r1, r2, clickPrecision) {
          action := Move(r2);
        } else {
          action := FormUp(Sub(r2, r1));
        }
      } else {
        action := PlayerAction.None;
      }
    }
  }
}
