/**
 * The wire-matching minigame: wires (MGWire) are carried by the player and
 * their end triggers (MGWireEndTrigger) plug them into slots (MGWireSlot); a
 * tracker (MGWireState) recounts the correctly matched slots after every
 * correct connection and ends the game when enough are matched.
 *
 * The game's static events are returned as flags by the methods that raise
 * them and dispatched by ConnectWireEnd, which plays the part of the
 * subscriptions: CorrectWire reaches MGWireState.AttachedWire, and
 * WireGameWon reaches MGWire.EndMinigame of every wire whose minigame started.
 */
module WireGame {

  /** MGWire.EWireID */
  datatype WireId = One | Two | Three | Four

  /** The materials the jack of a wire can be painted with. */
  datatype JackColor = Blue | Green | Red | Black

  /** MGWire.GetJackColor: the colour that tells the player where a wire belongs. */
  function JackColorOf(id: WireId): (c: JackColor)
    ensures c == Blue <==> id == One
    ensures c == Green <==> id == Two
    ensures c == Red <==> id == Three
    ensures c == Black <==> id !in {One, Two, Three}
  {
    match id
    case One => Blue
    case Two => Green
    case Three => Red
    case _ => Black
  }

  /** MGWireSlot: a connection point that expects one particular wire. */
  class WireSlot {
    const matchingWire: WireId
    var isConnected: bool
    var isCorrectWire: bool
    var connectedWire: Wire?

    /**
     * The slot invariant: a slot is connected exactly when it holds a wire,
     * and a slot marked correct is connected and holds the matching wire.
     */
    ghost predicate Valid()
      reads this
    {
      && (isConnected <==> connectedWire != null)
      && (isCorrectWire ==> isConnected && connectedWire != null && connectedWire.wireId == matchingWire)
    }

    constructor (matching: WireId)
      ensures Valid()
      ensures matchingWire == matching
      ensures !isConnected && !isCorrectWire && connectedWire == null
    {
      matchingWire := matching;
      isConnected := false;
      isCorrectWire := false;
      connectedWire := null;
    }

    /** Start: the slot appends itself to the tracker's list. */
    method Start(tracker: WireState)
      modifies tracker`slots
      ensures tracker.slots == old(tracker.slots) + [this]
    {
      tracker.slots := tracker.slots + [this];
    }

    /**
     * CheckWire: always records the wire; marks the slot correct and raises
     * CorrectWire (the result) exactly when the wire's ID matches. A mismatch
     * leaves IsCorrectWire as it was.
     */
    method CheckWire(wire: Wire) returns (correct: bool)
      modifies this`connectedWire, this`isCorrectWire
      ensures connectedWire == wire
      ensures correct <==> wire.wireId == matchingWire
      ensures isCorrectWire == (correct || old(isCorrectWire))
    {
      connectedWire := wire;
      if wire.wireId == matchingWire {
        isCorrectWire := true;
        return true;
      }
      return false;
    }

    /** RemoveWire: clears both flags and the connected wire. */
    method RemoveWire()
      requires connectedWire != null
      modifies this`isCorrectWire, this`isConnected, this`connectedWire
      ensures !isCorrectWire && !isConnected && connectedWire == null
      ensures Valid()
    {
      isCorrectWire := false;
      isConnected := false;
      connectedWire := null;
    }
  }

  /** Number of slots of `slots` whose IsCorrectWire flag is set. */
  function CorrectCount(slots: seq<WireSlot>): (n: nat)
    reads slots
    ensures n <= |slots|
  {
    if slots == [] then 0
    else CorrectCount(slots[..|slots| - 1]) + (if slots[|slots| - 1].isCorrectWire then 1 else 0)
  }

  /** The count reaches the number of slots exactly when every slot is correct. */
  lemma {:induction false} CorrectCountFull(slots: seq<WireSlot>)
    ensures CorrectCount(slots) == |slots| <==> forall i :: 0 <= i < |slots| ==> slots[i].isCorrectWire
  {
    if slots != [] {
      var init := slots[..|slots| - 1];
      CorrectCountFull(init);
      assert forall i :: 0 <= i < |init| ==> init[i] == slots[i];
    }
  }

  /** MGWireState: the tracker that recounts correct slots and signals a win. */
  class WireState {
    const maxAttachments: int
    var currentAttachments: int
    var slots: seq<WireSlot>

    /** Between calls the running count is back at zero. */
    ghost predicate Valid()
      reads this
    {
      currentAttachments == 0
    }

    constructor (max: int)
      ensures Valid() && maxAttachments == max && slots == []
    {
      maxAttachments := max;
      currentAttachments := 0;
      slots := [];
    }

    /**
     * AttachedWire: counts the slots marked correct from scratch, runs
     * EndWireGame (the result) when the count reaches the threshold, and
     * resets the count. There is no latch: the outcome depends only on the
     * current slot flags. The result stands for all three of EndWireGame's
     * calls, in order: the screen's material swapped to the fixed one, the
     * Robot NPC event triggered, and WireGameWon raised (the last of these is
     * ConnectWireEnd's BroadcastWireGameWon).
     */
    method AttachedWire() returns (won: bool)
      requires Valid()
      modifies this`currentAttachments
      ensures Valid()
      ensures won <==> CorrectCount(slots) >= maxAttachments
      ensures maxAttachments > |slots| ==> !won
    {
      var i := 0;
      while i < |slots|
        invariant 0 <= i <= |slots|
        invariant currentAttachments == CorrectCount(slots[..i])
      {
        assert slots[..i + 1][..i] == slots[..i];
        if slots[i].isCorrectWire {
          currentAttachments := currentAttachments + 1;
        }
        i := i + 1;
      }
      assert slots[..i] == slots;
      won := currentAttachments >= maxAttachments;
      currentAttachments := 0;
    }
  }

  /** MGWire: a wire the player can pick up and plug into a slot. */
  class Wire {
    const wireId: WireId
    var canConnectToSlot: bool
    var currentSlot: WireSlot?
    var isCorrectlySlotted: bool
    var isInteracting: bool
    var canInteract: bool
    var minigameStarted: bool

    /** The wire is ready to connect exactly while it remembers a slot. */
    ghost predicate Valid()
      reads this
    {
      canConnectToSlot <==> currentSlot != null
    }

    constructor (id: WireId)
      ensures Valid() && wireId == id
      ensures !canConnectToSlot && currentSlot == null && !isCorrectlySlotted
      ensures !isInteracting && !canInteract && !minigameStarted
    {
      wireId := id;
      canConnectToSlot := false;
      currentSlot := null;
      isCorrectlySlotted := false;
      isInteracting := false;
      canInteract := false;
      minigameStarted := false;
    }

    /** StartMinigame: enables interaction. */
    method StartMinigame()
      modifies this`minigameStarted, this`canInteract
      ensures minigameStarted && canInteract
    {
      minigameStarted := true;
      canInteract := true;
    }

    /** EndMinigame (the WireGameWon handler): disables interaction. */
    method EndMinigame()
      modifies this`minigameStarted, this`canInteract
      ensures !minigameStarted && !canInteract
    {
      minigameStarted := false;
      canInteract := false;
    }

    /** OnInteract: the player takes hold of the wire. */
    method OnInteract()
      modifies this`isInteracting
      ensures isInteracting
    {
      isInteracting := true;
    }

    /** OnDrop: the player lets go of the wire. */
    method OnDrop()
      modifies this`isInteracting
      ensures !isInteracting
    {
      isInteracting := false;
    }

    /**
     * Interact: only when the minigame has started and interaction is
     * allowed, plays the grab sound (the result) and toggles between holding
     * and not holding the wire.
     */
    method Interact() returns (grabSound: bool)
      modifies this`isInteracting
      ensures grabSound <==> minigameStarted && canInteract
      ensures isInteracting == (if grabSound then !old(isInteracting) else old(isInteracting))
    {
      grabSound := false;
      if minigameStarted && canInteract {
        grabSound := true;
        if !isInteracting {
          OnInteract();
        } else {
          OnDrop();
        }
      }
    }

    /**
     * PlaceWire: plugs the wire into the remembered slot when that slot is
     * free: the player stops holding it, the slot becomes connected and is
     * checked, and the connect sound plays (the result) only on a match.
     */
    method PlaceWire(slot: WireSlot?) returns (correct: bool)
      requires currentSlot != null ==> currentSlot.Valid()
      modifies this`isInteracting, this`isCorrectlySlotted, currentSlot
      ensures currentSlot == old(currentSlot)
      ensures currentSlot != null ==> currentSlot.Valid()
      ensures correct ==> slot != null && canConnectToSlot && currentSlot != null && !old(currentSlot.isConnected)
      ensures if slot != null && canConnectToSlot && currentSlot != null && !old(currentSlot.isConnected) then
          && !isInteracting
          && currentSlot.isConnected
          && currentSlot.connectedWire == this
          && (correct <==> wireId == currentSlot.matchingWire)
          && currentSlot.isCorrectWire == correct
          && isCorrectlySlotted == correct
        else
          && isInteracting == old(isInteracting)
          && isCorrectlySlotted == old(isCorrectlySlotted)
          && (currentSlot != null ==> unchanged(currentSlot))
    {
      correct := false;
      if slot != null && canConnectToSlot && currentSlot != null && !currentSlot.isConnected {
        isInteracting := false;
        currentSlot.isConnected := true;
        isCorrectlySlotted := currentSlot.CheckWire(this);
        correct := isCorrectlySlotted;
      }
    }

    /**
     * EndTriggerEnter: acts only on a slot that holds no wire; remembers it,
     * allows connecting and places the wire. Returns whether the wire was
     * placed and whether it matched (CorrectWire was raised).
     */
    method EndTriggerEnter(slot: WireSlot?) returns (placed: bool, correct: bool)
      requires Valid()
      requires slot != null ==> slot.Valid()
      requires currentSlot != null ==> currentSlot.Valid()
      modifies this`canConnectToSlot, this`currentSlot, this`isInteracting, this`isCorrectlySlotted, slot
      ensures Valid()
      ensures slot != null ==> slot.Valid()
      ensures placed <==> slot != null && old(slot.connectedWire) == null
      ensures correct ==> placed
      ensures placed ==>
          && currentSlot == slot && canConnectToSlot && !isInteracting
          && slot.isConnected && slot.connectedWire == this
          && (correct <==> wireId == slot.matchingWire)
          && slot.isCorrectWire == correct && isCorrectlySlotted == correct
      ensures !placed ==> unchanged(this) && (slot != null ==> unchanged(slot))
    {
      placed, correct := false, false;
      if slot != null && slot.connectedWire == null {
        canConnectToSlot := true;
        currentSlot := slot;
        correct := PlaceWire(slot);
        placed := true;
      }
    }

    /**
     * EndTriggerExit: removes the wire from the remembered slot only when that
     * slot holds this very wire; always forgets the slot.
     */
    method EndTriggerExit()
      requires currentSlot != null ==> currentSlot.Valid()
      modifies this`canConnectToSlot, this`currentSlot, currentSlot
      ensures Valid()
      ensures !canConnectToSlot && currentSlot == null
      ensures old(currentSlot) != null ==> old(currentSlot).Valid()
      ensures old(currentSlot) != null && old(currentSlot.connectedWire) == this ==>
          && !old(currentSlot).isConnected && !old(currentSlot).isCorrectWire
          && old(currentSlot).connectedWire == null
      ensures old(currentSlot) != null && old(currentSlot.connectedWire) != this ==>
          unchanged(old(currentSlot))
    {
      if currentSlot != null && currentSlot.connectedWire != null && currentSlot.connectedWire == this {
        currentSlot.RemoveWire();
      }
      canConnectToSlot := false;
      currentSlot := null;
    }
  }

  /** MGWireEndTrigger: the trigger collider at the end of a wire. */
  class WireEndTrigger {
    const wire: Wire?

    constructor (parent: Wire?)
      ensures wire == parent
    {
      wire := parent;
    }

    /**
     * OnTriggerEnter: forwards to EndTriggerEnter only when the wire exists,
     * the collider is a slot and that slot is not connected; entering a
     * connected slot changes nothing.
     */
    method OnTriggerEnter(slot: WireSlot?) returns (placed: bool, correct: bool)
      requires wire != null ==> wire.Valid()
      requires slot != null ==> slot.Valid()
      requires wire != null && wire.currentSlot != null ==> wire.currentSlot.Valid()
      modifies wire, slot
      ensures wire != null ==> wire.Valid()
      ensures wire != null ==> wire.minigameStarted == old(wire.minigameStarted) && wire.canInteract == old(wire.canInteract)
      ensures slot != null ==> slot.Valid()
      ensures placed <==> wire != null && slot != null && !old(slot.isConnected)
      ensures correct ==> placed
      ensures placed ==>
          && wire.currentSlot == slot && wire.canConnectToSlot && !wire.isInteracting
          && slot.isConnected && slot.connectedWire == wire
          && (correct <==> wire.wireId == slot.matchingWire)
          && slot.isCorrectWire == correct && wire.isCorrectlySlotted == correct
      ensures !placed ==> (wire != null ==> unchanged(wire)) && (slot != null ==> unchanged(slot))
    {
      placed, correct := false, false;
      if wire != null && slot != null && !slot.isConnected {
        placed, correct := wire.EndTriggerEnter(slot);
      }
    }

    /**
     * OnTriggerExit: forwards to EndTriggerExit only when the slot left holds
     * this trigger's wire; leaving an empty slot or one holding another wire
     * has no effect.
     */
    method OnTriggerExit(slot: WireSlot?)
      requires wire != null ==> wire.Valid()
      requires wire != null && wire.currentSlot != null ==> wire.currentSlot.Valid()
      modifies wire, if wire != null then {wire.currentSlot} else {}
      ensures wire != null ==> wire.Valid()
      ensures wire != null ==>
          && wire.minigameStarted == old(wire.minigameStarted) && wire.canInteract == old(wire.canInteract)
          && wire.isInteracting == old(wire.isInteracting) && wire.isCorrectlySlotted == old(wire.isCorrectlySlotted)
      ensures wire != null && old(wire.currentSlot) != null ==> old(wire.currentSlot).Valid()
      // leaving an empty slot or another wire's slot changes nothing
      ensures slot == null || wire == null || old(slot.connectedWire) != wire ==>
          (wire != null ==> unchanged(wire)) && (wire != null && old(wire.currentSlot) != null ==> unchanged(old(wire.currentSlot)))
      // leaving a slot that holds this wire makes the wire forget its remembered slot ...
      ensures slot != null && wire != null && old(slot.connectedWire) == wire ==>
          wire.currentSlot == null && !wire.canConnectToSlot
      // ... and empties the remembered slot when that one holds this wire, whichever slot was left
      ensures slot != null && wire != null && old(slot.connectedWire) == wire && old(wire.currentSlot) != null ==>
          if old(wire.currentSlot.connectedWire) == wire then
            && old(wire.currentSlot).connectedWire == null
            && !old(wire.currentSlot).isConnected && !old(wire.currentSlot).isCorrectWire
          else
            unchanged(old(wire.currentSlot))
      // the slot actually left keeps its wire unless it is the remembered one
      ensures slot != null && wire != null && slot != old(wire.currentSlot) ==>
          slot.connectedWire == old(slot.connectedWire) && slot.isConnected == old(slot.isConnected)
    {
      if wire != null && slot != null {
        if slot.connectedWire != null && slot.connectedWire == wire {
          wire.EndTriggerExit();
        }
      }
    }
  }

  /** Every wire of `wires` has its interaction switched off. */
  ghost predicate AllEnded(wires: seq<Wire>)
    reads wires
  {
    forall i :: 0 <= i < |wires| ==> !wires[i].minigameStarted && !wires[i].canInteract
  }

  /** The WireGameWon event: EndMinigame runs on every wire that started the minigame. */
  method BroadcastWireGameWon(wires: seq<Wire>)
    modifies wires
    ensures AllEnded(wires)
    ensures forall i :: 0 <= i < |wires| ==>
      && wires[i].isInteracting == old(wires[i].isInteracting)
      && wires[i].currentSlot == old(wires[i].currentSlot)
      && wires[i].canConnectToSlot == old(wires[i].canConnectToSlot)
      && wires[i].isCorrectlySlotted == old(wires[i].isCorrectlySlotted)
  {
    for i := 0 to |wires|
      invariant forall j :: 0 <= j < i ==> !wires[j].minigameStarted && !wires[j].canInteract
      invariant forall j :: 0 <= j < |wires| ==>
        && wires[j].isInteracting == old(wires[j].isInteracting)
        && wires[j].currentSlot == old(wires[j].currentSlot)
        && wires[j].canConnectToSlot == old(wires[j].canConnectToSlot)
        && wires[j].isCorrectlySlotted == old(wires[j].isCorrectlySlotted)
      invariant forall j :: 0 <= j < |wires| && !old(wires[j].minigameStarted) ==>
        wires[j].canInteract == old(wires[j].canInteract) || !wires[j].canInteract
    {
      if wires[i].minigameStarted || wires[i].canInteract {
        wires[i].EndMinigame();
      }
    }
  }

  /**
   * A wire end enters a slot, with the game's subscriptions in place: a
   * correct connection (CorrectWire) makes the tracker recount, and a win
   * (WireGameWon) ends the minigame for every wire. The result says whether
   * EndWireGame ran.
   */
  method ConnectWireEnd(trigger: WireEndTrigger, slot: WireSlot?, tracker: WireState, wires: seq<Wire>)
      returns (won: bool)
    requires trigger.wire != null ==> trigger.wire.Valid() && trigger.wire in wires
    requires slot != null ==> slot.Valid()
    requires trigger.wire != null && trigger.wire.currentSlot != null ==> trigger.wire.currentSlot.Valid()
    requires tracker.Valid()
    modifies wires, slot, tracker`currentAttachments
    ensures tracker.Valid()
    ensures slot != null ==> slot.Valid()
    // the tracker's running count is back where it started
    ensures tracker.currentAttachments == old(tracker.currentAttachments)
    // the wire is placed into a free slot exactly as OnTriggerEnter places it
    ensures trigger.wire != null && slot != null && !old(slot.isConnected) ==>
        && trigger.wire.currentSlot == slot && trigger.wire.canConnectToSlot && !trigger.wire.isInteracting
        && slot.isConnected && slot.connectedWire == trigger.wire
        && slot.isCorrectWire == (trigger.wire.wireId == slot.matchingWire)
        && trigger.wire.isCorrectlySlotted == slot.isCorrectWire
    // no placement, no change to the slot or to any wire
    ensures !(trigger.wire != null && slot != null && !old(slot.isConnected)) ==>
        (slot != null ==> unchanged(slot)) && forall w :: w in wires ==> unchanged(w)
    ensures won <==>
      trigger.wire != null && slot != null && !old(slot.isConnected) &&
      trigger.wire.wireId == slot.matchingWire &&
      CorrectCount(tracker.slots) >= tracker.maxAttachments
    // a win ends the minigame on every wire and moves no other wire
    ensures won ==> AllEnded(wires)
    ensures won ==> forall w :: w in wires && w != trigger.wire ==>
        && w.isInteracting == old(w.isInteracting) && w.currentSlot == old(w.currentSlot)
        && w.canConnectToSlot == old(w.canConnectToSlot) && w.isCorrectlySlotted == old(w.isCorrectlySlotted)
    // a connection that does not win leaves the other wires alone and every wire's minigame flags as they were
    ensures !won ==> forall w :: w in wires && w != trigger.wire ==> unchanged(w)
    ensures !won ==> forall w :: w in wires ==>
        w.minigameStarted == old(w.minigameStarted) && w.canInteract == old(w.canInteract)
  {
    var placed, correct := trigger.OnTriggerEnter(slot);
    won := false;
    if correct {
      won := tracker.AttachedWire();
      if won {
        BroadcastWireGameWon(wires);
      }
    }
  }
}
