/**
 * The Angel NPC's decisions (AngelNpc): which state hook of the NPC base
 * class runs after an interaction, which text variant of a dialogue node is
 * shown, and which dialogue node a player response leads to.
 *
 * The NPC base class is not part of this model: its state hooks and its own
 * dialogue choices appear only as named calls and as "defer to base" results.
 */
module Angel {
  import opened Common

  /** The NPC states AngelNpc names (the enum itself belongs to the base class). */
  datatype NpcState = DefaultIdle | MinigameReady | PlayingMinigame | PostMinigame

  /** Calls the Angel makes into the base class and the NPC event system, in order. */
  datatype NpcCall =
    | BaseEnterMinigameReady
    | BaseEnterPostMinigame
    | RemoveTimerEvent          // the remove-timer event, tagged Angel

  /** The base-class state hook CheckForStateChange runs in state `s`, if any. */
  function StateChangeHook(s: NpcState): (h: Option<NpcCall>)
    ensures h == Some(BaseEnterMinigameReady) <==> s == DefaultIdle
    ensures h == Some(BaseEnterPostMinigame) <==> s == PlayingMinigame
    ensures h == None <==> s !in {DefaultIdle, PlayingMinigame}
  {
    match s
    case DefaultIdle => Some(BaseEnterMinigameReady)
    case PlayingMinigame => Some(BaseEnterPostMinigame)
    case _ => None
  }

  /** What ChooseDialogueFromNode returns. */
  datatype DialogueChoice =
    | Variant(text: string)     // the node's second text variant
    | BaseDialogue              // the base class chooses
    | MissingVariant            // the node has no second variant: the index throws

  /**
   * ChooseDialogueFromNode: the second text variant exactly when both
   * minigames are complete; otherwise the base class chooses.
   */
  function ChooseDialogueFromNode(cowardGameComplete: bool, robotGameComplete: bool, dialogue: seq<string>)
    : (c: DialogueChoice)
    ensures c == BaseDialogue <==> !(cowardGameComplete && robotGameComplete)
    ensures c.Variant? <==> cowardGameComplete && robotGameComplete && |dialogue| >= 2
    ensures c.Variant? ==> c.text == dialogue[1]
  {
    if cowardGameComplete && robotGameComplete then
      (if |dialogue| >= 2 then Variant(dialogue[1]) else MissingVariant)
    else
      BaseDialogue
  }

  /** Animator triggers ChooseDialoguePath sets. */
  datatype AnimTrigger = FinalChoice | Healed

  datatype PathOutcome =
    | Chosen(index: int)        // the next dialogue node
    | BasePath                  // the base class resolves the response
    | MissingIndex              // NextResponseIndex[1] on a shorter array throws

  /**
   * The full effect of ChooseDialoguePath: the outcome, the animator
   * trigger, whether the dialogue is ended, and whether EnterPostMinigame is
   * scheduled after a delay.
   */
  datatype PathDecision = PathDecision(
    outcome: PathOutcome,
    trigger: Option<AnimTrigger>,
    endsDialogue: bool,
    schedulesPostMinigame: bool)

  /**
   * ChooseDialoguePath over a response's NextResponseIndex array `next`.
   * The branches are tried in the code's order; the fourth one (bypass item
   * outside PostMinigame) sits behind the second's identical test and is
   * never taken.
   */
  function ChooseDialoguePath(isPostMinigameState: bool, hasBypassItem: bool, state: NpcState, next: seq<int>)
    : (d: PathDecision)
    // in the post-minigame state a response with exactly one next index goes to node 0
    ensures isPostMinigameState && |next| == 1 ==>
      d == PathDecision(Chosen(0), Some(FinalChoice), false, false)
    // otherwise the bypass item picks the second index (throwing when there is none)
    ensures !(isPostMinigameState && |next| == 1) && hasBypassItem ==>
      && d.trigger == Some(Healed)
      && d.outcome == (if |next| >= 2 then Chosen(next[1]) else MissingIndex)
    // otherwise a non-empty array picks its first index
    ensures !(isPostMinigameState && |next| == 1) && !hasBypassItem && |next| > 0 ==>
      d == PathDecision(Chosen(next[0]), None, false, false)
    // the base class is asked exactly when there is no bypass item and no index
    ensures d.outcome == BasePath <==> !hasBypassItem && |next| == 0
    // the bypass-to-post-minigame branch is dead
    ensures !d.schedulesPostMinigame && !d.endsDialogue
    // a chosen node is node 0 or one of the response's indices
    ensures d.outcome.Chosen? ==> d.outcome.index == 0 || d.outcome.index in next
  {
    if isPostMinigameState && |next| == 1 then
      PathDecision(Chosen(0), Some(FinalChoice), false, false)
    else if hasBypassItem then
      PathDecision(if |next| >= 2 then Chosen(next[1]) else MissingIndex, Some(Healed), false, false)
    else if !hasBypassItem && |next| > 0 then
      PathDecision(Chosen(next[0]), None, false, false)
    else if hasBypassItem && state != PostMinigame then
      PathDecision(Chosen(0), None, true, true)
    else
      PathDecision(BasePath, None, false, false)
  }

  /** AngelNpc: the Angel's own state on top of the base class's current state. */
  class AngelNpc {
    var currentState: NpcState          // the base class's _currentState
    var isPostMinigameState: bool
    var robotGameComplete: bool
    var cowardGameComplete: bool

    constructor (initial: NpcState)
      ensures currentState == initial
      ensures !isPostMinigameState && !robotGameComplete && !cowardGameComplete
    {
      currentState := initial;
      isPostMinigameState := false;
      robotGameComplete := false;
      cowardGameComplete := false;
    }

    /**
     * EnterPostMinigame: runs the base hook, fires the remove-timer event
     * and marks the Angel as being in its post-minigame state.
     */
    method EnterPostMinigame() returns (calls: seq<NpcCall>)
      modifies this`isPostMinigameState
      ensures isPostMinigameState
      ensures calls == [BaseEnterPostMinigame, RemoveTimerEvent]
    {
      calls := [BaseEnterPostMinigame];
      calls := calls + [RemoveTimerEvent];
      isPostMinigameState := true;
    }

    /**
     * CheckForStateChange: from DefaultIdle runs the base minigame-ready hook,
     * from PlayingMinigame the Angel's post-minigame entry, and otherwise
     * nothing.
     */
    method CheckForStateChange() returns (calls: seq<NpcCall>)
      modifies this`isPostMinigameState
      ensures calls == [] <==> StateChangeHook(currentState) == None
      ensures calls != [] ==> Some(calls[0]) == StateChangeHook(currentState)
      ensures RemoveTimerEvent in calls <==> currentState == PlayingMinigame
      ensures calls == match currentState
                       case DefaultIdle => [BaseEnterMinigameReady]
                       case PlayingMinigame => [BaseEnterPostMinigame, RemoveTimerEvent]
                       case _ => []
      ensures isPostMinigameState == (old(isPostMinigameState) || currentState == PlayingMinigame)
    {
      calls := [];
      if currentState == DefaultIdle {
        calls := [BaseEnterMinigameReady];
      } else if currentState == PlayingMinigame {
        calls := EnterPostMinigame();
      }
    }
  }
}
