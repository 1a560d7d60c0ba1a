/**
 * The wrench of the coward minigame (WrenchBehavior): the player picks it up
 * once, then smacks sparks with it; when enough sparks have been smacked the
 * sparks are switched off and the minigame's end event fires.
 */
module Wrenches {

  /** Calls into the dialogue menu, the player and the NPC event system, in order. */
  datatype Effect =
    | LockCharacter(locked: bool)
    | StopDetectingInteractions
    | StartDetectingInteractions
    | ShowItemDescription
    | ToggleDialogue(visible: bool)
    | ClearDialogueOptions
    | ShowExitResponse
    | PlayPickupSound
    | TriggerItemEvent

  /** Whether the smack that brings the counter to `count` ends the minigame. */
  predicate EndsMinigame(count: int, maxSpark: int)
  {
    count >= maxSpark
  }

  /** Number of end events fired by k further smacks, starting from counter `start`. */
  function EndEvents(start: int, maxSpark: int, k: nat): (n: nat)
    ensures n <= k
  {
    if k == 0 then 0
    else EndEvents(start, maxSpark, k - 1) + (if EndsMinigame(start + k, maxSpark) then 1 else 0)
  }

  /**
   * The handler has no once-only guard: of k smacks it handles, every one from
   * the smack that reaches the maximum onwards fires the end event again. The
   * wrench stops handling smacks only once its delayed shutdown has run
   * (Wrench.ShutDown).
   */
  lemma {:induction false} EndEventsClosedForm(start: int, maxSpark: int, k: nat)
    ensures EndEvents(start, maxSpark, k) ==
      if start + k < maxSpark then 0
      else if start >= maxSpark then k
      else start + k - maxSpark + 1
  {
    if k > 0 {
      EndEventsClosedForm(start, maxSpark, k - 1);
    }
  }

  /** In particular two handled smacks past the maximum fire the end event twice. */
  lemma EndEventRepeats(start: int, maxSpark: int)
    requires start + 1 >= maxSpark
    ensures EndEvents(start, maxSpark, 2) == 2
  {
    EndEventsClosedForm(start, maxSpark, 2);
  }

  /** WrenchBehavior: the wrench and its spark counter. */
  class Wrench {
    const maxSpark: int
    const hasItemEvent: bool        // the item description's EventToTrigger is set
    var sparkSmacked: int
    var isEquipped: bool
    var sparksModeActive: bool
    var subscribed: bool            // SparkSmacked is on the static SparkSmackedAction
    var shutDownPending: bool       // a SystematicShutDown coroutine has been started
    var active: bool                // the wrench's game object is active

    constructor (max: int, itemEvent: bool)
      ensures maxSpark == max && hasItemEvent == itemEvent
      ensures sparkSmacked == 0 && !isEquipped && sparksModeActive
      ensures !subscribed && !shutDownPending && active
    {
      maxSpark := max;
      hasItemEvent := itemEvent;
      sparkSmacked := 0;
      isEquipped := false;
      sparksModeActive := true;
      subscribed := false;
      shutDownPending := false;
      active := true;
    }

    /** Start: the wrench begins unequipped and subscribes to spark smacks. */
    method Start()
      modifies this`isEquipped, this`subscribed
      ensures !isEquipped && subscribed
    {
      isEquipped := false;
      subscribed := true;
    }

    /**
     * SparkSmacked: counts one more smack; when the count has reached the
     * maximum it switches the sparks off, starts the delayed shutdown and
     * fires the end event (the result), on this and on every later smack
     * the wrench still handles.
     */
    method SparkSmacked() returns (ended: bool)
      modifies this`sparkSmacked, this`sparksModeActive, this`shutDownPending
      ensures sparkSmacked == old(sparkSmacked) + 1
      ensures ended <==> EndsMinigame(sparkSmacked, maxSpark)
      ensures sparksModeActive == (old(sparksModeActive) && !ended)
      ensures shutDownPending == (old(shutDownPending) || ended)
    {
      sparkSmacked := sparkSmacked + 1;
      ended := false;
      if sparkSmacked >= maxSpark {
        sparksModeActive := false;
        shutDownPending := true;
        ended := true;
      }
    }

    /**
     * The static SparkSmackedAction raised once: the wrench handles it only
     * while subscribed; otherwise nothing changes and no end event fires.
     */
    method SparkSmackedRaised() returns (ended: bool)
      modifies this`sparkSmacked, this`sparksModeActive, this`shutDownPending
      ensures subscribed ==>
        && sparkSmacked == old(sparkSmacked) + 1
        && (ended <==> EndsMinigame(sparkSmacked, maxSpark))
        && sparksModeActive == (old(sparksModeActive) && !ended)
        && shutDownPending == (old(shutDownPending) || ended)
      ensures !subscribed ==>
        && !ended && sparkSmacked == old(sparkSmacked)
        && sparksModeActive == old(sparksModeActive) && shutDownPending == old(shutDownPending)
    {
      ended := false;
      if subscribed {
        ended := SparkSmacked();
      }
    }

    /**
     * SystematicShutDown, once its wait is over: deactivates the wrench, and
     * OnDisable unsubscribes its handler, so later smacks are ignored. The
     * wait does nothing when no shutdown was started.
     */
    method ShutDown()
      modifies this`active, this`subscribed
      ensures old(shutDownPending) ==> !active && !subscribed
      ensures !old(shutDownPending) ==> active == old(active) && subscribed == old(subscribed)
    {
      if shutDownPending {
        active := false;
        subscribed := false;
      }
    }

    /**
     * PickUpWrench: equips the wrench (playing the pickup sound, the result)
     * only when it is not equipped yet; a second call changes nothing.
     */
    method PickUpWrench() returns (pickupSound: bool)
      modifies this`isEquipped
      ensures isEquipped
      ensures pickupSound <==> !old(isEquipped)
    {
      pickupSound := false;
      if !isEquipped {
        pickupSound := true;
        isEquipped := true;
      }
    }

    /**
     * Interact: locks the player, shows the item's description, replaces the
     * dialogue options with its exit response, and always ends by picking the
     * wrench up.
     */
    method Interact() returns (effects: seq<Effect>)
      modifies this`isEquipped
      ensures isEquipped
      ensures |effects| == if old(isEquipped) then 6 else 7
      ensures effects[..6] == [LockCharacter(true), StopDetectingInteractions, ShowItemDescription,
                               ToggleDialogue(true), ClearDialogueOptions, ShowExitResponse]
      ensures PlayPickupSound in effects <==> !old(isEquipped)
    {
      effects := [LockCharacter(true), StopDetectingInteractions, ShowItemDescription,
                  ToggleDialogue(true), ClearDialogueOptions, ShowExitResponse];
      var sound := PickUpWrench();
      if sound {
        effects := effects + [PlayPickupSound];
      }
    }

    /**
     * CloseItemDescription: hides the dialogue, frees the player, and fires
     * the item's event only when one is set.
     */
    method CloseItemDescription() returns (effects: seq<Effect>)
      ensures |effects| == if hasItemEvent then 4 else 3
      ensures effects[..3] == [ToggleDialogue(false), LockCharacter(false), StartDetectingInteractions]
      ensures TriggerItemEvent in effects <==> hasItemEvent
    {
      effects := [ToggleDialogue(false), LockCharacter(false), StartDetectingInteractions];
      if hasItemEvent {
        effects := effects + [TriggerItemEvent];
      }
    }
  }
}
