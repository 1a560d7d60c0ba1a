/**
 * The gear slots of the coward minigame (GearBehavior): each slot holds a
 * row of interchangeable gear objects of which exactly one is shown; every
 * interaction shows the next one, cyclically, until the right one is shown.
 */
module Gears {

  /** Index of the gear shown after one interaction: one further, wrapping round. */
  function NextIndex(cur: int, n: int): (r: int)
    requires n > 0 && 0 <= cur < n
    ensures 0 <= r < n
    ensures r == 0 <==> cur == n - 1
    ensures cur < n - 1 ==> r == cur + 1
  {
    (cur + 1) % n
  }

  /** Index shown after k interactions starting from `cur`. */
  function AfterTurns(cur: int, n: int, k: nat): (r: int)
    requires n > 0 && 0 <= cur < n
    ensures 0 <= r < n
  {
    if k == 0 then cur else NextIndex(AfterTurns(cur, n, k - 1), n)
  }

  /** Before the end of the row is reached, k interactions move k places forward. */
  lemma {:induction false} AfterTurnsBeforeEnd(cur: int, n: int, k: nat)
    requires n > 0 && 0 <= cur < n && cur + k < n
    ensures AfterTurns(cur, n, k) == cur + k
  {
    if k > 0 {
      AfterTurnsBeforeEnd(cur, n, k - 1);
    }
  }

  /** From any gear, n - cur interactions wrap round to the first gear. */
  lemma AfterTurnsWraps(cur: int, n: int)
    requires n > 0 && 0 <= cur < n
    ensures AfterTurns(cur, n, n - cur) == 0
  {
    AfterTurnsBeforeEnd(cur, n, n - cur - 1);
  }

  /** a + b interactions are a interactions followed by b more. */
  lemma {:induction false} AfterTurnsAdd(cur: int, n: int, a: nat, b: nat)
    requires n > 0 && 0 <= cur < n
    ensures AfterTurns(cur, n, a + b) == AfterTurns(AfterTurns(cur, n, a), n, b)
  {
    if b > 0 {
      AfterTurnsAdd(cur, n, a, b - 1);
    }
  }

  /** After n interactions the slot shows the gear it started with. */
  lemma FullTurnReturns(cur: int, n: int)
    requires n > 0 && 0 <= cur < n
    ensures AfterTurns(cur, n, n) == cur
  {
    AfterTurnsAdd(cur, n, n - cur, cur);
    AfterTurnsWraps(cur, n);
    AfterTurnsBeforeEnd(0, n, cur);
  }

  /**
   * A right gear number inside the row is shown after between 1 and n
   * interactions, whatever gear is shown first.
   */
  lemma RightGearReachable(cur: int, n: int, right: int)
    requires n > 0 && 0 <= cur < n && 0 <= right < n
    ensures exists k: nat :: 1 <= k <= n && AfterTurns(cur, n, k) == right
  {
    if right > cur {
      AfterTurnsBeforeEnd(cur, n, right - cur);
      assert AfterTurns(cur, n, right - cur) == right;
    } else {
      AfterTurnsAdd(cur, n, n - cur, right);
      AfterTurnsWraps(cur, n);
      AfterTurnsBeforeEnd(0, n, right);
      assert AfterTurns(cur, n, n - cur + right) == right;
    }
  }

  /** A right gear number outside the row is never shown: the slot cannot be completed by hand. */
  lemma RightGearOutOfRange(cur: int, n: int, right: int, k: nat)
    requires n > 0 && 0 <= cur < n && (right < 0 || right >= n)
    ensures AfterTurns(cur, n, k) != right
  {
  }

  /**
   * Awake's rotation: the configured speed as a rotation about z that is
   * always clockwise (never positive), keeping the speed's magnitude.
   */
  function ClockwiseRotation(speed: real): (z: real)
    ensures z <= 0.0
    ensures z == speed || z == -speed
    ensures speed <= 0.0 ==> z == speed
  {
    if speed > 0.0 then -speed else speed
  }

  /** What one Interact call did. */
  datatype GearTurn =
    | Ignored                        // the slot is already complete
    | Turned(correctGear: bool)      // the next gear is shown; the change sound plays;
                                     // correctGear: CorrectGear was raised
    | DivideByZero                   // `%=` by a row of zero gears throws

  /** GearBehavior: one gear slot. */
  class Gear {
    const gearActive: array<bool>    // the gear objects' active flags
    const rightGearNum: int
    var startingGearIndex: int
    var currentIndex: int
    var isComplete: bool

    /** Exactly the gear at index `k` is shown. */
    ghost predicate ShowsOnly(k: int)
      reads gearActive
    {
      forall i :: 0 <= i < gearActive.Length ==> (gearActive[i] <==> i == k)
    }

    /**
     * The slot invariant after Awake: the current index lies inside a
     * non-empty row; an incomplete slot shows exactly its current gear, and a
     * complete one exactly the right gear.
     */
    ghost predicate Valid()
      reads this, gearActive
    {
      && (gearActive.Length > 0 ==> 0 <= currentIndex < gearActive.Length)
      && (!isComplete ==> ShowsOnly(currentIndex))
      && (isComplete ==> ShowsOnly(rightGearNum))
    }

    constructor (gears: array<bool>, start: int, right: int)
      ensures gearActive == gears && startingGearIndex == start && rightGearNum == right
      ensures !isComplete
    {
      gearActive := gears;
      startingGearIndex := start;
      rightGearNum := right;
      currentIndex := 0;
      isComplete := false;
    }

    /**
     * Awake: a starting index outside the row falls back to 0; the current
     * index becomes the starting one and only that gear is shown.
     */
    method Awake()
      requires !isComplete
      modifies this`startingGearIndex, this`currentIndex, gearActive
      ensures Valid()
      ensures startingGearIndex == (if 0 <= old(startingGearIndex) < gearActive.Length then old(startingGearIndex) else 0)
      ensures currentIndex == startingGearIndex
    {
      if startingGearIndex >= gearActive.Length || startingGearIndex < 0 {
        startingGearIndex := 0;
      }
      currentIndex := startingGearIndex;
      for i := 0 to gearActive.Length
        modifies gearActive
        invariant forall j :: 0 <= j < i ==> (gearActive[j] <==> j == startingGearIndex)
      {
        gearActive[i] := i == startingGearIndex;
      }
    }

    /**
     * Interact: an incomplete slot shows the next gear of the row, plays the
     * change sound and completes when that gear is the right one; a complete
     * slot ignores the player. On an empty row the index is bumped and the
     * modulo throws.
     */
    method Interact() returns (r: GearTurn)
      requires Valid()
      modifies this`currentIndex, this`isComplete, gearActive
      ensures r == Ignored <==> old(isComplete)
      ensures r == DivideByZero <==> !old(isComplete) && gearActive.Length == 0
      ensures r == Ignored ==> unchanged(this) && unchanged(gearActive)
      ensures r == DivideByZero ==> currentIndex == old(currentIndex) + 1 && isComplete == old(isComplete)
      ensures r.Turned? ==>
        && Valid()
        && currentIndex == NextIndex(old(currentIndex), gearActive.Length)
        && ShowsOnly(currentIndex)
        && (r.correctGear <==> currentIndex == rightGearNum)
        && isComplete == r.correctGear
    {
      if !isComplete {
        var previousIndex := currentIndex;
        currentIndex := currentIndex + 1;
        if gearActive.Length == 0 {
          return DivideByZero;
        }
        currentIndex := currentIndex % gearActive.Length;
        if previousIndex < gearActive.Length && previousIndex >= 0 {
          gearActive[previousIndex] := false;
        }
        if currentIndex < gearActive.Length && currentIndex >= 0 {
          gearActive[currentIndex] := true;
        }
        var correct := CheckGearCompletion();
        return Turned(correct);
      }
      return Ignored;
    }

    /** CheckGearCompletion: completes the slot (raising CorrectGear) when the right gear is shown. */
    method CheckGearCompletion() returns (correct: bool)
      modifies this`isComplete
      ensures correct <==> currentIndex == rightGearNum
      ensures isComplete == (old(isComplete) || correct)
    {
      correct := currentIndex == rightGearNum;
      if correct {
        isComplete := true;
      }
    }

    /**
     * SetGearToComplete: forces the slot complete and shows only the right
     * gear (none at all when the right number lies outside the row); the
     * current index is left as it was.
     */
    method SetGearToComplete()
      requires Valid()
      modifies this`isComplete, gearActive
      ensures Valid()
      ensures isComplete && currentIndex == old(currentIndex)
      ensures ShowsOnly(rightGearNum)
      ensures !(0 <= rightGearNum < gearActive.Length) ==> forall i :: 0 <= i < gearActive.Length ==> !gearActive[i]
    {
      isComplete := true;
      for i := 0 to gearActive.Length
        modifies gearActive
        invariant forall j :: 0 <= j < i ==> (gearActive[j] <==> j == rightGearNum)
      {
        gearActive[i] := i == rightGearNum;
      }
    }
  }
}
