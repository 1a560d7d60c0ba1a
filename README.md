# Placebo-Entertainment: verified model of the game's state machines

This project models, in Dafny, the discrete logic under the Unity game's engine glue:

- **The wire-matching minigame.** Wires are plugged into slots. Each slot knows which wire it expects. A tracker recounts the correctly wired slots after every correct connection and ends the minigame once enough are matched.
- **The gear and wrench minigame.** A gear slot cycles through its row of gear objects, showing exactly one, until it shows the right one. The wrench is equipped once and counts the sparks it smacks.
- **The Angel NPC's decisions.** These are its state hook, which variant of a dialogue line it shows, and which dialogue node a response leads to.
- **The time loop's reset.** At scene start, timers are filed as running or paused. On reset they are restarted or only reset, the game is saved, and a reload is scheduled. A static flag survives the reload.
- **The audio instance pool.** Event instances are pooled and reused per event reference. Attach objects and parameter IDs are cached per instance.
- **The three menus.** The main menu, the pause menu and the slideshow player each have screen or flag state machines. They share one classifier from input-device names to keyboard and mouse, Xbox, or PlayStation, and show prompts that depend only on that class.

There is one module per source file, with the four wire files together in `WireGame`. `Common` holds `Option` and an occurrence count. `InputDevices` holds the classifier the three menus share.

Objects the game mutates in place are classes with those fields. Each method's `modifies` clause names the fields its source method may write: single fields (`this`field`) where the written object is `this`, and whole objects where it is another, possibly null, object. Each method's `ensures` then gives the new value of every field its frame covers, either as written or as unchanged.

Calls into the engine, FMOD, Steam, the save manager and the timers are returned as ordered lists of effect values. What those systems answer becomes a parameter or an oracle. For audio, the oracle is the `Engine` datatype, which supplies:
- which instances are stopped;
- the handle `CreateInstance` returns;
- the new game object;
- which objects are destroyed;
- the parameter IDs.

C# exceptions the code can throw become outcome constructors:
- `DivideByZero` for a gear row with no gears;
- `MissingIndex` and `MissingVariant` for out-of-range array reads in the Angel;
- `DuplicateParameter`, `MissingParameter` and `MissingInstanceParameters` in the audio parameter cache;
- `NullReference` in audio for a missing followed transform or a destroyed attach object;
- `NullReference` as the last slideshow effect when a clip is written to a missing video player.

Where the code's comments, names or evident intent differ from what it does, the model follows what it does:
- **No won latch.** The wire game fires `WireGameWon` again on every later correct connection while the count is high enough (`MGWireState.cs:41-71`).
- **No re-entry guard on `ResetLoop`.** Each call schedules its own reload (`LoopController.cs:55-74`).
- **`ChooseDialoguePath` has no requirement-flag fallback.** Its bypass-to-post-minigame branch is unreachable (`AngelNpc.cs:94-104`).
- **The Angel's two completion flags are never set.** `_robotGameComplete` and `_cowardGameComplete` are private, not serialized, and never assigned (`AngelNpc.cs:18-19, 67`), so the dialogue variant branch is dead in the whole program.
- **Leaving one slot while plugged into another.** If a wire end leaves slot A while the wire remembers a different slot B, `EndTriggerExit` empties B and A keeps holding the wire (`MGWireEndTrigger.cs:42-48` with `MGWire.cs:207-212`). The model keeps this behaviour.

## Model

| member | source | states |
|---|---|---|
| WireGame.JackColorOf | Assets/Scripts/Minigames/WireGame/MGWire.cs:250-271 | ONE is blue, TWO green, THREE red, and every other ID black; each colour is stated in both directions |
| WireGame.WireSlot.constructor | Assets/Scripts/Minigames/WireGame/MGWireSlot.cs:21-31 | a new slot is unconnected, not correct, holds no wire, and satisfies the slot invariant |
| WireGame.WireSlot.Start | Assets/Scripts/Minigames/WireGame/MGWireSlot.cs:36-41 | the slot appends itself to the tracker's slot list |
| WireGame.WireSlot.CheckWire | Assets/Scripts/Minigames/WireGame/MGWireSlot.cs:47-64 | the wire is always recorded; the result (CorrectWire raised) is true exactly when the IDs match; IsCorrectWire becomes true on a match and is otherwise unchanged |
| WireGame.WireSlot.RemoveWire | Assets/Scripts/Minigames/WireGame/MGWireSlot.cs:72-84 | needs a connected wire; clears both flags and the wire, which re-establishes the invariant "correct implies connected to the matching wire" |
| WireGame.CorrectCount | Assets/Scripts/Minigames/WireGame/MGWireState.cs:44-50 | the number of slots flagged correct never exceeds the number of slots |
| WireGame.CorrectCountFull | Assets/Scripts/Minigames/WireGame/MGWireState.cs:44-53 | the count equals the slot count exactly when every slot is correct |
| WireGame.WireState.constructor | Assets/Scripts/Minigames/WireGame/MGWireState.cs:19-22 | the running count starts at 0 with no slots |
| WireGame.WireState.AttachedWire | Assets/Scripts/Minigames/WireGame/MGWireState.cs:41-60 | EndWireGame runs exactly when the fresh count of correct slots reaches the threshold; the running count is 0 again afterwards; a threshold above the slot count never wins |
| WireGame.Wire.constructor | Assets/Scripts/Minigames/WireGame/MGWire.cs:50-59 | every flag starts false and no slot is remembered |
| WireGame.Wire.StartMinigame | Assets/Scripts/Minigames/WireGame/MGWire.cs:99-104 | both gating flags become true |
| WireGame.Wire.EndMinigame | Assets/Scripts/Minigames/WireGame/MGWire.cs:109-114 | both gating flags become false |
| WireGame.Wire.OnInteract | Assets/Scripts/Minigames/WireGame/MGWire.cs:142-152 | the wire is held |
| WireGame.Wire.OnDrop | Assets/Scripts/Minigames/WireGame/MGWire.cs:177-184 | the wire is no longer held |
| WireGame.Wire.Interact | Assets/Scripts/Minigames/WireGame/MGWire.cs:120-136 | acts (grab sound) exactly when the minigame has started and interaction is allowed, and then toggles holding; otherwise nothing changes |
| WireGame.Wire.PlaceWire | Assets/Scripts/Minigames/WireGame/MGWire.cs:220-244 | on a free remembered slot: stops holding, connects the slot, records CheckWire's result as correctly slotted, and plays the connect sound only on a match; otherwise nothing changes; the slot invariant is kept |
| WireGame.Wire.EndTriggerEnter | Assets/Scripts/Minigames/WireGame/MGWire.cs:191-199 | acts exactly on a non-null slot holding no wire: remembers it, allows connecting and places the wire; otherwise nothing changes |
| WireGame.Wire.EndTriggerExit | Assets/Scripts/Minigames/WireGame/MGWire.cs:205-213 | removes the wire only from a slot that holds this wire, leaves any other slot unchanged, and always forgets the slot |
| WireGame.WireEndTrigger.constructor | Assets/Scripts/Minigames/WireGame/MGWireEndTrigger.cs:15-19 | the trigger belongs to its parent wire |
| WireGame.WireEndTrigger.OnTriggerEnter | Assets/Scripts/Minigames/WireGame/MGWireEndTrigger.cs:25-32 | forwards exactly when the wire exists, the collider is a slot, and the slot is not connected; entering a connected slot changes nothing; a placed wire records the slot, may connect, stops interacting, and the slot and wire agree on whether the IDs match; the wire's minigame and interact flags are unchanged |
| WireGame.WireEndTrigger.OnTriggerExit | Assets/Scripts/Minigames/WireGame/MGWireEndTrigger.cs:38-50 | forwards only when the slot holds this trigger's wire; leaving an empty slot or another wire's slot changes nothing; a forwarded exit makes the wire forget its slot and empties the remembered slot when that slot holds the wire; the slot being left is unchanged when it is not the remembered one; the wire's other flags are unchanged |
| WireGame.BroadcastWireGameWon | Assets/Scripts/Minigames/WireGame/MGWireState.cs:65-71 | after WireGameWon, every wire's interaction is switched off and nothing else about the wires changes |
| WireGame.ConnectWireEnd | Assets/Scripts/Minigames/WireGame/MGWireState.cs:27-30 | with the subscriptions in place, a connection wins exactly when it is a correct one into a free slot and the recount reaches the threshold (the recount runs only on a correct connection); a placement into a free slot is OnTriggerEnter's, without a placement neither the slot nor any wire changes; the tracker's running count ends where it started; a win ends every wire's minigame and moves no other wire; a connection that does not win leaves every other wire unchanged and every wire's minigame flags as they were |
| Gears.NextIndex | Assets/Scripts/Minigames/CowardMiniGame/GearBehavior.cs:86-88 | the next index stays in the row, wraps to 0 exactly from the last gear, and otherwise moves one forward |
| Gears.AfterTurns | Assets/Scripts/Minigames/CowardMiniGame/GearBehavior.cs:82-98 | any number of interactions keeps the index inside the row |
| Gears.AfterTurnsBeforeEnd | Assets/Scripts/Minigames/CowardMiniGame/GearBehavior.cs:86-88 | before the end of the row, k interactions move k places |
| Gears.AfterTurnsWraps | Assets/Scripts/Minigames/CowardMiniGame/GearBehavior.cs:86-88 | n - cur interactions wrap round to the first gear |
| Gears.AfterTurnsAdd | Assets/Scripts/Minigames/CowardMiniGame/GearBehavior.cs:86-88 | a + b interactions are a interactions followed by b |
| Gears.FullTurnReturns | Assets/Scripts/Minigames/CowardMiniGame/GearBehavior.cs:86-88 | n interactions bring the slot back to the gear it showed |
| Gears.RightGearReachable | Assets/Scripts/Minigames/CowardMiniGame/GearBehavior.cs:82-112 | a right gear number inside the row is shown after between 1 and n interactions |
| Gears.RightGearOutOfRange | Assets/Scripts/Minigames/CowardMiniGame/GearBehavior.cs:103-112 | a right gear number outside the row is never shown |
| Gears.ClockwiseRotation | Assets/Scripts/Minigames/CowardMiniGame/GearBehavior.cs:40-48 | the rotation is never positive (clockwise) and keeps the speed's magnitude |
| Gears.Gear.constructor | Assets/Scripts/Minigames/CowardMiniGame/GearBehavior.cs:23-32 | a new slot is incomplete, with its configured row, starting index and right gear number |
| Gears.Gear.Awake | Assets/Scripts/Minigames/CowardMiniGame/GearBehavior.cs:50-62 | an out-of-range starting index falls back to 0; the current index is the starting one; exactly that gear is shown |
| Gears.Gear.Interact | Assets/Scripts/Minigames/CowardMiniGame/GearBehavior.cs:82-98 | ignored exactly when complete; on an empty row the index is bumped and the modulo throws; otherwise the next index is shown alone, and CorrectGear is raised and the slot completes exactly when that index is the right one |
| Gears.Gear.CheckGearCompletion | Assets/Scripts/Minigames/CowardMiniGame/GearBehavior.cs:103-112 | the slot completes, raising CorrectGear, exactly when the current index is the right gear number |
| Gears.Gear.SetGearToComplete | Assets/Scripts/Minigames/CowardMiniGame/GearBehavior.cs:117-128 | the slot is complete with its index unchanged, and exactly the right gear is shown (none when the right number is outside the row) |
| Wrenches.EndEvents | Assets/Scripts/Minigames/CowardMiniGame/WrenchBehavior.cs:115-129 | k smacks fire at most k end events |
| Wrenches.EndEventsClosedForm | Assets/Scripts/Minigames/CowardMiniGame/WrenchBehavior.cs:115-129 | the handler has no once-only guard: of the smacks it handles, every one from the one that reaches the maximum onwards fires the end event |
| Wrenches.EndEventRepeats | Assets/Scripts/Minigames/CowardMiniGame/WrenchBehavior.cs:120-128 | two handled smacks at or past the maximum fire the end event twice |
| Wrenches.Wrench.constructor | Assets/Scripts/Minigames/CowardMiniGame/WrenchBehavior.cs:43-57 | no sparks are smacked, the wrench is unequipped, active and not yet subscribed, no shutdown is pending, and sparks mode is on |
| Wrenches.Wrench.Start | Assets/Scripts/Minigames/CowardMiniGame/WrenchBehavior.cs:75-82 | the wrench starts unequipped and subscribed to spark smacks |
| Wrenches.Wrench.SparkSmacked | Assets/Scripts/Minigames/CowardMiniGame/WrenchBehavior.cs:115-129 | the counter rises by exactly one; the end event fires, sparks mode goes off and the delayed shutdown is started, exactly when the count has reached the maximum |
| Wrenches.Wrench.SparkSmackedRaised | Assets/Scripts/Minigames/CowardMiniGame/WrenchBehavior.cs:59-81 | a raised spark smack is handled exactly as SparkSmacked while the wrench is subscribed; otherwise nothing changes and no end event fires |
| Wrenches.Wrench.ShutDown | Assets/Scripts/Minigames/CowardMiniGame/WrenchBehavior.cs:106-110 | once started, the shutdown deactivates the wrench and unsubscribes its handler (WrenchBehavior.cs:195-198), so every later smack is ignored; with no shutdown started nothing changes |
| Wrenches.Wrench.PickUpWrench | Assets/Scripts/Minigames/CowardMiniGame/WrenchBehavior.cs:165-177 | the wrench is equipped afterwards, and the pickup sound plays only when it was not equipped before |
| Wrenches.Wrench.Interact | Assets/Scripts/Minigames/CowardMiniGame/WrenchBehavior.cs:150-160 | locks the player, stops detecting interactions, shows the description, opens the dialogue, clears its options and shows the exit response, in that order, and always ends equipped; the pickup sound plays only on the first pickup |
| Wrenches.Wrench.CloseItemDescription | Assets/Scripts/Minigames/CowardMiniGame/WrenchBehavior.cs:134-144 | hides the dialogue, frees the player, and triggers the item event exactly when one is set |
| Angel.StateChangeHook | Assets/Scripts/NpcBehaviors/AngelNpc.cs:22-32 | DefaultIdle runs the minigame-ready hook, PlayingMinigame the post-minigame entry, and every other state nothing; each case is stated in both directions |
| Angel.ChooseDialogueFromNode | Assets/Scripts/NpcBehaviors/AngelNpc.cs:64-75 | the base class chooses exactly when the two completion flags are not both set; otherwise the second variant is used, or the read throws when there is none |
| Angel.ChooseDialoguePath | Assets/Scripts/NpcBehaviors/AngelNpc.cs:77-105 | in the post-minigame state a single index goes to node 0; otherwise the bypass item takes index 1 (throwing when missing); otherwise a non-empty array takes index 0; the base class is used exactly without bypass item and indices; the bypass-to-post-minigame branch never runs |
| Angel.AngelNpc.constructor | Assets/Scripts/NpcBehaviors/AngelNpc.cs:18-20 | both completion flags and the post-minigame flag start false |
| Angel.AngelNpc.EnterPostMinigame | Assets/Scripts/NpcBehaviors/AngelNpc.cs:34-43 | runs the base hook, fires the remove-timer event, and sets the post-minigame flag |
| Angel.AngelNpc.CheckForStateChange | Assets/Scripts/NpcBehaviors/AngelNpc.cs:22-32 | the calls made are exactly the state's hook: enter-minigame-ready from DefaultIdle, enter-post-minigame then remove-timer-event from PlayingMinigame, none otherwise; the post-minigame flag is set exactly from PlayingMinigame |
| Loop.RunningTimers | Assets/Scripts/Loop/LoopController.cs:25-35 | the running list is no longer than the timer list |
| Loop.PausedTimers | Assets/Scripts/Loop/LoopController.cs:25-35 | the paused list is no longer than the timer list |
| Loop.StartPartitions | Assets/Scripts/Loop/LoopController.cs:25-35 | every timer lands in exactly one of the two lists: together they hold the manager's timers as a multiset |
| Loop.RunningTimersSpec | Assets/Scripts/Loop/LoopController.cs:27-30 | a timer is in the running list exactly when an entry for it was running at Start |
| Loop.RestartCalls | Assets/Scripts/Loop/LoopController.cs:57-61 | each running timer is reset and then started, in order |
| Loop.ResetOnlyCalls | Assets/Scripts/Loop/LoopController.cs:62-65 | each paused timer is reset only, in order |
| Loop.RestartCallAt | Assets/Scripts/Loop/LoopController.cs:57-61 | the restart calls alternate reset and start, timer by timer |
| Loop.OnlyRunningTimersStart | Assets/Scripts/Loop/LoopController.cs:55-65 | a timer is started by ResetLoop exactly when it was running at Start |
| Loop.SaveBeforeReload | Assets/Scripts/Loop/LoopController.cs:66-67 | each reset saves once and schedules one reload, with the save immediately before the reload |
| Loop.TimerCallsOnly | Assets/Scripts/Loop/LoopController.cs:57-65 | the timer part of a reset neither saves nor reloads |
| Loop.ResetTwiceReloadsTwice | Assets/Scripts/Loop/LoopController.cs:55-74 | with no re-entry guard, two resets schedule two reloads |
| Loop.LoopFlag.constructor | Assets/Scripts/Loop/LoopController.cs:21 | the static loop flag starts false |
| Loop.LoopController.constructor | Assets/Scripts/Loop/LoopController.cs:17-18 | both timer lists start empty |
| Loop.LoopController.Start | Assets/Scripts/Loop/LoopController.cs:23-44 | the lists receive the running and the paused timers in order; the save is loaded, and the reset animation plays exactly when the loop flag is set |
| Loop.LoopController.ResetLoop | Assets/Scripts/Loop/LoopController.cs:55-74 | the calls are the restarts, the resets, the save, the scheduled reload, and the DIE achievement exactly when Steam is present |
| Loop.LoopController.DelayLoadOfScene | Assets/Scripts/Loop/LoopController.cs:76-82 | reloads the active scene and sets the loop flag |
| Audio.FirstStopped | Assets/Scripts/Audio/AudioManager.cs:80-90 | finds the first stopped instance of a pool, and finds none exactly when no instance is stopped |
| Audio.RegisterParamsSpec | Assets/Scripts/Audio/AudioManager.cs:121-135 | the first parameter array succeeds exactly when its names are distinct; the table then maps each name to its looked-up ID, with one SetParameter call per parameter |
| Audio.ReuseParamsSpec | Assets/Scripts/Audio/AudioManager.cs:136-143 | a later array succeeds exactly when every name is cached; the parameters are then set by cached ID, in order |
| Audio.FirstArrayFixesParameters | Assets/Scripts/Audio/AudioManager.cs:121-143 | after the first array is cached, a later request with a name the first lacked throws |
| Audio.RegisterIdsFromNames | Assets/Scripts/Audio/AudioManager.cs:121-135 | the first-use table holds only names from the request |
| Audio.PoolsOnlyGrow | Assets/Scripts/Audio/AudioManager.cs:78-102 | every pool keeps its list as a prefix of its new list, and only the requested reference's pool can change |
| Audio.AcquireSpec | Assets/Scripts/Audio/AudioManager.cs:78-102 | the first stopped instance is reused with the pool unchanged; with none stopped, the created instance is appended; an unseen reference gets a one-element pool |
| Audio.PlaySpec | Assets/Scripts/Audio/AudioManager.cs:69-147 | a null reference returns the default instance and changes nothing; otherwise the pool is updated, each instance keeps one attach object, cached on first use; a null followed transform or a destroyed attach object throws a null reference after the pool and cache updates, with no call made and the parameter cache unchanged; the instance starts exactly when no exception is thrown |
| Audio.ParamCallsOnlySet | Assets/Scripts/Audio/AudioManager.cs:121-143 | the parameter step makes only SetParameter calls |
| Audio.RegisterOnlySets | Assets/Scripts/Audio/AudioManager.cs:121-135 | first use makes only SetParameter calls |
| Audio.ReuseOnlySets | Assets/Scripts/Audio/AudioManager.cs:136-143 | a later use makes only SetParameter calls |
| Audio.PlayPreservesValid | Assets/Scripts/Audio/AudioManager.cs:69-147 | given fresh handles and objects, a play request keeps the pool invariant: the default instance is never pooled, caches belong to pooled instances, and attach objects are not shared |
| Audio.AudioManager.constructor | Assets/Scripts/Audio/AudioManager.cs:13-15 | the three dictionaries start empty |
| Audio.AudioManager.Awake | Assets/Scripts/Audio/AudioManager.cs:17-23 | all three dictionaries are cleared |
| Audio.AudioManager.OnDestroy | Assets/Scripts/Audio/AudioManager.cs:25-40 | stops every event when the master bus is valid, then clears all three dictionaries |
| Audio.AudioManager.FindReusable | Assets/Scripts/Audio/AudioManager.cs:80-90 | the pool search finds a stopped instance exactly when one exists, and returns the first |
| Audio.AudioManager.AcquireInstance | Assets/Scripts/Audio/AudioManager.cs:78-102 | the instance and the new pools are those of the pool rule |
| Audio.AudioManager.AttachObjectFor | Assets/Scripts/Audio/AudioManager.cs:104-113 | returns the cached attach object, or caches and returns the new one |
| Audio.AudioManager.ApplyParameters | Assets/Scripts/Audio/AudioManager.cs:121-143 | the parameter loops give the table, calls and exception of the parameter rule |
| Audio.AudioManager.PlaySoundAttachedToTransform | Assets/Scripts/Audio/AudioManager.cs:69-147 | the new dictionaries and the result are those of a play request parented to the followed transform, which may be null; a null transform or destroyed attach object ends in a null-reference error after the pool and attach cache are updated; the pool invariant is kept |
| Audio.AudioManager.PlaySoundAttachedToBody | Assets/Scripts/Audio/AudioManager.cs:149-229 | as above, parented to the body, with the attach step skipped for a destroyed object |
| Audio.AudioManager.PlaySound | Assets/Scripts/Audio/AudioManager.cs:231-235 | exactly the Rigidbody overload with no body |
| Audio.AudioManager.ModifyPlayingSound | Assets/Scripts/Audio/AudioManager.cs:237-245 | an empty array does nothing; an instance without a table throws; otherwise parameters are set by cached ID, throwing at the first unknown name |
| Audio.AudioManager.StopSound | Assets/Scripts/Audio/AudioManager.cs:247-254 | an invalid instance is left alone; a valid one is stopped, with fade-out when asked |
| InputDevices.Code | Assets/Scripts/UI/MainMenu.cs:744-758 | the device classes are stored as 0, 1 and 2 |
| InputDevices.BackImageFor | Assets/Scripts/UI/PauseMenu.cs:610-617 | no image for keyboard and mouse, the Xbox image for Xbox, and the PlayStation image otherwise |
| InputDevices.ToLower | Assets/Scripts/UI/MainMenu.cs:743 | lower-casing keeps the length and lower-cases each character |
| InputDevices.LowerCharIdempotent | Assets/Scripts/UI/MainMenu.cs:743 | lower-casing one character twice is lower-casing it once |
| InputDevices.ToLowerIdempotent | Assets/Scripts/UI/MainMenu.cs:743 | lower-casing a name twice is lower-casing it once |
| InputDevices.ContainsCorrect | Assets/Scripts/UI/MainMenu.cs:746-751 | the substring scan agrees with "some position holds the text", in both directions |
| InputDevices.Classify | Assets/Scripts/UI/MainMenu.cs:743-758 | Xbox exactly when the lower-cased name contains "xbox"; PlayStation exactly when it does not but contains "playstation", "dualsense" or "dualshock"; keyboard and mouse otherwise |
| InputDevices.ClassifyIgnoresCase | Assets/Scripts/UI/MainMenu.cs:743 | the classification ignores letter case |
| InputDevices.XboxTestComesFirst | Assets/Scripts/UI/MainMenu.cs:746-753 | a name with both brands is classified Xbox |
| InputDevices.ToLowerAppend | Assets/Scripts/UI/MainMenu.cs:743 | lower-casing distributes over concatenation |
| InputDevices.XboxNamedAnywhere | Assets/Scripts/UI/MainMenu.cs:743-748 | any device name containing "xbox" in any letter case, anywhere, is an Xbox controller |
| MainMenus.NextScreen | Assets/Scripts/UI/MainMenu.cs:465-631 | a screen input keeps the index in {0..3}, moves it by at most one, and never returns to the splash screen |
| MainMenus.RunStaysInRange | Assets/Scripts/UI/MainMenu.cs:114-115 | the index stays in {0..3} under any sequence of inputs |
| MainMenus.SplashClosedForGood | Assets/Scripts/UI/MainMenu.cs:467-469 | once the splash screen is closed, no input sequence brings it back |
| MainMenus.SplashNeedsStart | Assets/Scripts/UI/MainMenu.cs:467-469 | without the start input the menu stays on the splash screen |
| MainMenus.BackUndoesForward | Assets/Scripts/UI/MainMenu.cs:608-631 | Back undoes every move into the settings screens |
| MainMenus.SubmenuReachable | Assets/Scripts/UI/MainMenu.cs:465-544 | from any screen, start, Settings, then Audio or Controls reach the submenu screen |
| MainMenus.TabTarget | Assets/Scripts/UI/MainMenu.cs:652-663 | the tab extends to 1171 when confirming a new game, otherwise moves to 322 when active and to 0 when not |
| MainMenus.Prompts | Assets/Scripts/UI/MainMenu.cs:769-801 | the screen picks the prompt group; the keyboard prompts and the cursor show exactly for keyboard and mouse, the controller prompts exactly otherwise; the back image is the controller's |
| MainMenus.PromptsDependOnlyOnDevice | Assets/Scripts/UI/MainMenu.cs:769-801 | apart from the group, the prompts depend only on the device, and exactly one of the keyboard and controller prompts shows |
| MainMenus.ControllerFocus | Assets/Scripts/UI/MainMenu.cs:448-459 | the remembered button wins; otherwise New Game on the splash screen, Audio on the main screen, and nothing elsewhere |
| MainMenus.MainMenu.constructor | Assets/Scripts/UI/MainMenu.cs:109-134 | the menu starts on the splash screen, unfocused, with tab animation enabled and keyboard and mouse as the device |
| MainMenus.MainMenu.ClearButtonFocus | Assets/Scripts/UI/MainMenu.cs:422-426 | deselects the focused object (the one effect returned) and clears the focus flag, which is the only field it writes; apart from the initial state, it is the only method that clears that flag |
| MainMenus.MainMenu.ChangeButtonFocus | Assets/Scripts/UI/MainMenu.cs:432-436 | focuses the button and remembers it |
| MainMenus.MainMenu.ControllerUsed | Assets/Scripts/UI/MainMenu.cs:442-460 | does nothing while focused; otherwise sets the flag and focuses the remembered or default button |
| MainMenus.MainMenu.CloseSplashScreen | Assets/Scripts/UI/MainMenu.cs:465-475 | moves from 0 to 1 and focuses New Game; a no-op on any other screen |
| MainMenus.MainMenu.ContinueButtonClicked | Assets/Scripts/UI/MainMenu.cs:481-485 | loads the game's video scene exactly on the main screen |
| MainMenus.MainMenu.SettingsButtonClicked | Assets/Scripts/UI/MainMenu.cs:491-500 | moves from 1 to 2 and refreshes the prompts; a no-op elsewhere |
| MainMenus.MainMenu.AudioButtonClicked | Assets/Scripts/UI/MainMenu.cs:506-523 | moves from 2 to 3 and refreshes the prompts; a no-op elsewhere |
| MainMenus.MainMenu.ControlsButtonClicked | Assets/Scripts/UI/MainMenu.cs:529-544 | moves from 2 to 3 and refreshes the prompts; a no-op elsewhere |
| MainMenus.MainMenu.AnimateTab | Assets/Scripts/UI/MainMenu.cs:641-665 | starts an animation towards the target width exactly while tab animation is enabled |
| MainMenus.MainMenu.NewGameButtonClicked | Assets/Scripts/UI/MainMenu.cs:550-561 | on the main screen, extends the New Game tab, disables tab animation and the other buttons; a no-op elsewhere |
| MainMenus.MainMenu.StartNewGame | Assets/Scripts/UI/MainMenu.cs:567-575 | deletes the save when there is a save manager, then loads the intro scene |
| MainMenus.MainMenu.ConfirmNoButtonClicked | Assets/Scripts/UI/MainMenu.cs:581-593 | re-enables tab animation before retracting the tab, so the tab always retracts, then re-enables the buttons |
| MainMenus.MainMenu.QuitButtonClicked | Assets/Scripts/UI/MainMenu.cs:599-603 | quits exactly on the main screen |
| MainMenus.MainMenu.BackButtonClicked | Assets/Scripts/UI/MainMenu.cs:608-631 | 2 goes to 1; 3 goes to 2, after committing the sliders when there is a settings manager, and refreshes the prompts; a no-op on 0 and 1 |
| MainMenus.MainMenu.DetectInputType | Assets/Scripts/UI/MainMenu.cs:741-764 | the device becomes the name's class, and the prompts are refreshed exactly when the class changed |
| PauseMenus.PausePress | Assets/Scripts/UI/PauseMenu.cs:351-383 | a running game pauses; a paused one unpauses from screen 0 and otherwise goes back one screen; the index stays in {0..2} |
| PauseMenus.PressesUnpause | Assets/Scripts/UI/PauseMenu.cs:351-383 | from screen s the game stays paused for s presses and the next one unpauses it |
| PauseMenus.PauseRoundTrip | Assets/Scripts/UI/PauseMenu.cs:354-362 | from any unpaused screen s, the game is paused after each of the first s+1 presses and press s+2 unpauses it on screen 0 |
| PauseMenus.PressesStayInRange | Assets/Scripts/UI/PauseMenu.cs:351-383 | the index stays in {0..2} under any number of presses |
| PauseMenus.EscapeOverride | Assets/Scripts/UI/PauseMenu.cs:311-327 | the Xbox override beats the PlayStation one, which beats the mouse's "Esc"; with no input the label is unchanged |
| PauseMenus.PromptFor | Assets/Scripts/UI/PauseMenu.cs:605-617 | a back prompt reads "Esc" with no image exactly for keyboard and mouse; otherwise it is empty with the controller's image |
| PauseMenus.Prompts | Assets/Scripts/UI/PauseMenu.cs:603-618 | all four back prompts follow the device alike |
| PauseMenus.PromptsIdentifyDevice | Assets/Scripts/UI/PauseMenu.cs:603-618 | distinct devices give distinct prompts |
| PauseMenus.CursorFor | Assets/Scripts/UI/PauseMenu.cs:330-340 | during dialogue the cursor stays free; otherwise it is visible and unlocked exactly while paused |
| PauseMenus.ClampTabTime | Assets/Scripts/UI/PauseMenu.cs:177-178 | a non-positive animation time becomes 0.25; a positive one is kept |
| PauseMenus.ControllerFocus | Assets/Scripts/UI/PauseMenu.cs:414-425 | the remembered button wins; otherwise Continue on screen 0, Audio on screen 1, and nothing elsewhere |
| PauseMenus.PauseMenu.constructor | Assets/Scripts/UI/PauseMenu.cs:70-88 | the game starts unpaused on screen 0, unfocused, with keyboard and mouse as the device |
| PauseMenus.PauseMenu.ClampTabAnimationTime | Assets/Scripts/UI/PauseMenu.cs:177-178 | the stored animation time is clamped |
| PauseMenus.PauseMenu.TogglePauseMenu | Assets/Scripts/UI/PauseMenu.cs:304-344 | sets the pause flag; time scale is 0 when pausing and 1 otherwise; shows or hides the menu; places the cursor; when pausing, focuses Continue and applies the overrides; the screen index is untouched |
| PauseMenus.PauseMenu.PauseGamePerformed | Assets/Scripts/UI/PauseMenu.cs:351-383 | pause flag and screen follow the press rule; pausing stops time, shows the menu, focuses Continue, and sets the cursor and escape label; unpausing from screen 0 restarts time, hides the menu and sets the cursor; a back press leaves time, menu, cursor and label unchanged and commits settings exactly from screen 2 with a settings manager |
| PauseMenus.PauseMenu.ClearButtonFocus | Assets/Scripts/UI/PauseMenu.cs:388-392 | deselects the focused object (the one effect returned) and clears the focus flag, which is the only field it writes; apart from the initial state, it is the only method that clears that flag |
| PauseMenus.PauseMenu.ChangeButtonFocus | Assets/Scripts/UI/PauseMenu.cs:398-402 | focuses the button and remembers it |
| PauseMenus.PauseMenu.ControllerUsed | Assets/Scripts/UI/PauseMenu.cs:408-426 | does nothing while focused; otherwise sets the flag and focuses the remembered or default button |
| PauseMenus.PauseMenu.ContinuePressed | Assets/Scripts/UI/PauseMenu.cs:432-435 | unpauses with time scale 1 and the menu hidden |
| PauseMenus.PauseMenu.SettingsButtonClicked | Assets/Scripts/UI/PauseMenu.cs:441-446 | the index becomes 1, with no guard |
| PauseMenus.PauseMenu.AudioButtonClicked | Assets/Scripts/UI/PauseMenu.cs:452-463 | the index becomes 2, with no guard |
| PauseMenus.PauseMenu.ControlsButtonClicked | Assets/Scripts/UI/PauseMenu.cs:469-478 | the index becomes 2, with no guard |
| PauseMenus.PauseMenu.ExitToMenu | Assets/Scripts/UI/PauseMenu.cs:484-488 | time scale is 1 before scene 0 is loaded |
| PauseMenus.PauseMenu.DetectInputType | Assets/Scripts/UI/PauseMenu.cs:575-598 | the device becomes the name's class, and the prompts are refreshed exactly when the class changed |
| Slideshow.FinishOutcome | Assets/Scripts/UI/SlideshowManager.cs:156-174 | the intro player loads the level; any other player queues the credits while they are not shown yet, and loads the menu after |
| Slideshow.CreditsShownAfter | Assets/Scripts/UI/SlideshowManager.cs:162-168 | the credits flag is set once the credits are queued, and never cleared |
| Slideshow.Finishes | Assets/Scripts/UI/SlideshowManager.cs:156-174 | k finishes make k decisions |
| Slideshow.CreditsAtMostOnce | Assets/Scripts/UI/SlideshowManager.cs:162-173 | over any run of finishes that complete, the credits are queued at most once: never once shown or for the intro player, and exactly once for any other player |
| Slideshow.IntroAlwaysLoadsLevel | Assets/Scripts/UI/SlideshowManager.cs:158-161 | every finish of the intro player loads the level |
| Slideshow.PromptsFor | Assets/Scripts/UI/SlideshowManager.cs:319-329 | the keyboard pair shows exactly for code 0, the Xbox pair for 1, and the PlayStation pair for 2 |
| Slideshow.SlideshowManager.constructor | Assets/Scripts/UI/SlideshowManager.cs:33-58 | no audio or clip is selected, the credits are not shown, and the device is keyboard and mouse |
| Slideshow.SlideshowManager.FinishEffects | Assets/Scripts/UI/SlideshowManager.cs:156-174 | only queuing the credits prepares a clip; every other finish only loads scenes; the intro loads the level; a return to the menu loads it twice |
| Slideshow.SlideshowManager.DonePlaying | Assets/Scripts/UI/SlideshowManager.cs:156-174 | the effects are those of the finish decision and the credits flag follows it; queuing the credits selects their audio and clip; without a video player, queuing the credits selects the audio and then throws, leaving the clip and the credits flag as they were; nothing else changes |
| Slideshow.SlideshowManager.PlayVideo | Assets/Scripts/UI/SlideshowManager.cs:179-185 | shows the slideshow, stops the old audio, plays the selected one, and plays the video |
| Slideshow.SlideshowManager.PlayIntroSlideshow | Assets/Scripts/UI/SlideshowManager.cs:190-195 | selects and prepares the intro video; without a video player it selects the audio and then throws, leaving the clip as it was |
| Slideshow.SlideshowManager.PlayEndingSlideshow | Assets/Scripts/UI/SlideshowManager.cs:201-216 | for 0 <= index < the number of endings, disables the player, stops all sounds, and prepares that ending, or throws after selecting its audio when there is no video player; otherwise only logs an error |
| Slideshow.SlideshowManager.TogglePlayPause | Assets/Scripts/UI/SlideshowManager.cs:221-234 | flips between playing and paused, and does nothing without a player |
| Slideshow.SlideshowManager.OnSkipVideo | Assets/Scripts/UI/SlideshowManager.cs:239-242 | skipping has exactly the effects and state changes of finishing: the finish decision's effects, the credits flag, and the credits audio and clip when queued, or the same throw without a video player |
| Slideshow.SlideshowManager.SkipPerformed | Assets/Scripts/UI/SlideshowManager.cs:86-93 | a hold finishes the video as OnSkipVideo does, including the throw without a video player, with the play state unchanged; any other interaction only toggles play and pause, with no effects and the credits flag, audio and clip unchanged |
| Slideshow.SlideshowManager.DetectInputType | Assets/Scripts/UI/SlideshowManager.cs:291-314 | the device becomes the name's class, and the prompts are refreshed exactly when the class changed |
| Common.OccurrencesAppend | Assets/Scripts/Loop/LoopController.cs:55-74 | occurrence counts add up over a concatenation (used to count saves and reloads) |

## Left out

- Coroutines, tweens and lerps are not modelled: `ScaleTabWidth`, `UpdateSkipMeter`, `DisplaySkipMeter`, `RotateJack`, `RotateGear`, `Swinging`, and the PrimeTween move in `ConnectJackToSlot`. They are time-driven floating-point animation. `AnimateTab` is modelled by the width it targets, and `StopCoroutine` is not modelled.
- Positions, rotations, parenting and widget styles are reduced to effect values or left out. The only widget state kept is the prompt choices.
- Volume and sensitivity sliders and their FMOD parameter writes are not modelled. `CommitSettings` stands for the settings-manager calls.
- `AngelNpc.WinGame` (`AngelNpc.cs:48-56`) is not modelled: it compares a `TimeSpan` against 480 seconds and calls Steam. `AngelNpc.Interact` (`AngelNpc.cs:107-116`) and the talking animation in `ChooseDialogueFromNode` are not modelled: they depend on the base class's dialogue index, dialogue trees and animations, which are not part of this model.
- `BaseNpc`, the timers and timer manager, `SaveLoadManager`, `NpcEvent`, `TabbedMenu`, `SettingsManager` and the player controller are not part of this model. They appear only as named calls, or as parameters such as `dialogueVisible`, `settingsManagerPresent` and the triggered input flags.
- Angel.AngelNpc.CheckForStateChange and Angel.AngelNpc.EnterPostMinigame: the base class's `EnterMinigameReady` and `EnterPostMinigame` change `_currentState` in `BaseNpc`, which is not part of this model. They are returned as the calls `BaseEnterMinigameReady` and `BaseEnterPostMinigame`, and the model's `currentState` is left as it was.
- Wrenches.Wrench.ShutDown: the 1.1-second wait of `SystematicShutDown` is not modelled. The shutdown is an operation a caller runs at any later point, so the model does not say which smacks land before it.
- Slideshow.CreditsAtMostOnce: it is about the finish decision. Without a video player, queuing the credits throws before the flag is set, so repeated skips try to queue the credits again each time.
- Loop.LoopController.Start: each timer's `IsRunning` is read once. The source reads it a second time in the `else if`, which gives the same answer.
- Audio.AudioManager.ModifyPlayingSound: the parameter array is never null here. A null array would throw in the source's loop.
- Audio: `FreshFor` assumes FMOD returns a new handle and the engine a new object. The handle and object allocators are not modelled.
- `PlaySoundUnManaged` and `StopAllSounds` are not modelled apart from `OnDestroy`'s stop-all call. They do not touch the dictionaries.
- InputDevices.ToLower: lower-cases ASCII letters only. C#'s culture-aware `ToLower` also folds other letters, which no brand name here needs.
- WireGame: the `CorrectWire` and `WireGameWon` event dispatch is done by `WireGame.ConnectWireEnd` after `PlaceWire` returns, not in the middle of it. `PlaceWire` writes none of the fields `EndMinigame` writes, so the final state is the same.
- The slideshow's skip-cinematic shortcut in `Awake` (`SlideshowManager.cs:71-74`) and all input-callback registration and unregistration are not modelled.
- Floating-point time scale is modelled as the reals 0.0 and 1.0. The gear's rotation speed is modelled as a real.
