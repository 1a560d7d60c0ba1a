/**
 * The main menu (MainMenu): a splash screen (0), the main screen (1), the
 * settings selection (2) and a settings submenu (3). The menu's handlers move
 * between these screens, focus buttons for controller users, gate the tab
 * animations, and switch the input prompts when the input device changes.
 *
 * Widgets, sliders, the save manager, the settings manager and the scene
 * manager are outside this model: what the menu asks of them is returned as
 * an ordered list of effects.
 */
module MainMenus {
  import opened Common
  import opened InputDevices

  /** The buttons the menu focuses. */
  datatype MenuButton = NewGameButton | ContinueButton | SettingsButton | AudioButton | ControlsButton | QuitButton

  /** Inputs that can change the current screen. */
  datatype MenuInput =
    | StartInput          // the start-game input, bound to CloseSplashScreen
    | SettingsClick
    | AudioClick
    | ControlsClick
    | BackInput

  /** Width targets of the tab animation. */
  const ExtendedTabWidth := 1171
  const ActiveTabWidth := 322
  const HiddenTabWidth := 0

  /** The prompt group UpdateInputPrompts switches on each screen. */
  datatype PromptGroup = GameStartPrompts | SelectionBackPrompts | SubmenuBackPrompts

  /**
   * What UpdateInputPrompts sets: which group of prompts it switches, whether
   * the keyboard or the controller prompts of that group are shown, whether
   * the cursor is visible, and the image given to the controller back prompts
   * (None: the images are left as they are).
   */
  datatype MenuPrompts = MenuPrompts(
    group: Option<PromptGroup>,
    keyboardShown: bool,
    controllerShown: bool,
    cursorVisible: bool,
    backImage: Option<BackImage>)

  /** Calls the menu makes into the engine, the save manager and the settings manager, in order. */
  datatype MenuEffect =
    | LoadScene(index: int)
    | QuitApplication
    | DeleteSaveData
    | CommitSettings            // slider values written back to the settings manager
    | ScaleTab(width: int)      // a tab animation started towards this width
    | SetButtonsEnabled(enabled: bool)
    | Focus(button: MenuButton)
    | ClearSelection            // the event system's selected object set to none
    | ShowPrompts(prompts: MenuPrompts)

  /** The screen the menu is on after `input` on screen `screen`. */
  function NextScreen(screen: int, input: MenuInput): (next: int)
    ensures 0 <= screen <= 3 ==> 0 <= next <= 3
    ensures next == screen || next == screen + 1 || next == screen - 1
    ensures screen >= 1 ==> next >= 1
  {
    match input
    case StartInput => if screen == 0 then 1 else screen
    case SettingsClick => if screen == 1 then 2 else screen
    case AudioClick => if screen == 2 then 3 else screen
    case ControlsClick => if screen == 2 then 3 else screen
    case BackInput => if screen == 2 then 1 else if screen == 3 then 2 else screen
  }

  /** The screen after a whole sequence of inputs. */
  function Run(screen: int, inputs: seq<MenuInput>): int
    decreases |inputs|
  {
    if inputs == [] then screen else Run(NextScreen(screen, inputs[0]), inputs[1..])
  }

  /** The screen index never leaves {0, 1, 2, 3}. */
  lemma {:induction false} RunStaysInRange(screen: int, inputs: seq<MenuInput>)
    requires 0 <= screen <= 3
    ensures 0 <= Run(screen, inputs) <= 3
    decreases |inputs|
  {
    if inputs != [] {
      RunStaysInRange(NextScreen(screen, inputs[0]), inputs[1..]);
    }
  }

  /** Once the splash screen is closed, no input brings it back. */
  lemma {:induction false} SplashClosedForGood(screen: int, inputs: seq<MenuInput>)
    requires screen >= 1
    ensures Run(screen, inputs) >= 1
    decreases |inputs|
  {
    if inputs != [] {
      SplashClosedForGood(NextScreen(screen, inputs[0]), inputs[1..]);
    }
  }

  /** Only the start input leaves the splash screen. */
  lemma {:induction false} SplashNeedsStart(inputs: seq<MenuInput>)
    requires StartInput !in inputs
    ensures Run(0, inputs) == 0
  {
    if inputs != [] {
      assert inputs[0] != StartInput;
      SplashNeedsStart(inputs[1..]);
    }
  }

  /** Back undoes every move into the settings screens. */
  lemma BackUndoesForward(screen: int, input: MenuInput)
    requires input in {SettingsClick, AudioClick, ControlsClick}
    requires NextScreen(screen, input) != screen
    ensures NextScreen(NextScreen(screen, input), BackInput) == screen
  {
  }

  /**
   * From any screen, start, Settings and then Audio or Controls lead to a
   * settings submenu: inputs that do not apply on a screen leave it alone.
   */
  lemma SubmenuReachable(screen: int, submenu: MenuInput)
    requires 0 <= screen <= 3
    requires submenu in {AudioClick, ControlsClick}
    ensures Run(screen, [StartInput, SettingsClick, submenu]) == 3
  {
    var s1 := NextScreen(screen, StartInput);
    var s2 := NextScreen(s1, SettingsClick);
    assert [StartInput, SettingsClick, submenu][1..] == [SettingsClick, submenu];
    assert [SettingsClick, submenu][1..] == [submenu];
    assert Run(s2, [submenu]) == NextScreen(s2, submenu);
    assert s2 >= 2;
  }

  /** The width AnimateTab animates a tab towards. */
  function TabTarget(isActive: bool, extendNewGame: bool): (w: int)
    ensures w == ExtendedTabWidth <==> extendNewGame
    ensures w == ActiveTabWidth <==> !extendNewGame && isActive
    ensures w == HiddenTabWidth <==> !extendNewGame && !isActive
  {
    if extendNewGame then ExtendedTabWidth else if isActive then ActiveTabWidth else HiddenTabWidth
  }

  /** UpdateInputPrompts for a screen and a device. */
  function Prompts(screen: int, device: Device): (p: MenuPrompts)
    ensures p.group == (if screen == 0 then Some(GameStartPrompts)
                        else if screen == 2 then Some(SelectionBackPrompts)
                        else if screen == 3 then Some(SubmenuBackPrompts)
                        else None)
    ensures p.keyboardShown <==> device == KeyboardMouse
    ensures p.controllerShown <==> device != KeyboardMouse
    ensures p.cursorVisible <==> device == KeyboardMouse
    ensures p.backImage == BackImageFor(device)
  {
    var group := if screen == 0 then Some(GameStartPrompts)
                 else if screen == 2 then Some(SelectionBackPrompts)
                 else if screen == 3 then Some(SubmenuBackPrompts)
                 else None;
    if device == KeyboardMouse then MenuPrompts(group, true, false, true, None)
    else MenuPrompts(group, false, true, false, if device == Xbox then Some(XboxBack) else Some(PsBack))
  }

  /**
   * Apart from which group is switched, the prompts depend only on the
   * device; and exactly one of the keyboard and controller prompts is shown.
   */
  lemma PromptsDependOnlyOnDevice(s: int, t: int, device: Device)
    ensures Prompts(s, device).(group := None) == Prompts(t, device).(group := None)
    ensures Prompts(s, device).keyboardShown != Prompts(s, device).controllerShown
  {
  }

  /** The button ControllerUsed focuses, if any. */
  function ControllerFocus(lastFocused: Option<MenuButton>, screen: int): (b: Option<MenuButton>)
    ensures lastFocused.Some? ==> b == lastFocused
    ensures lastFocused.None? && screen == 0 ==> b == Some(NewGameButton)
    ensures lastFocused.None? && screen == 1 ==> b == Some(AudioButton)
    ensures b == None <==> lastFocused.None? && screen !in {0, 1}
  {
    if lastFocused.Some? then lastFocused
    else if screen == 0 then Some(NewGameButton)
    else if screen == 1 then Some(AudioButton)
    else None
  }

  /** MainMenu. */
  class MainMenu {
    const gameSceneVideoIndex: int
    const introVideoBuildIndex: int
    var currentScreenIndex: int
    var isFocused: bool
    var canAnimateTabs: bool
    var inputDeviceType: Device
    var lastFocused: Option<MenuButton>     // _lastFocusedVisualElement

    /** The screen index is one of the four screens. */
    predicate Valid()
      reads this
    {
      0 <= currentScreenIndex <= 3
    }

    constructor (gameScene: int, introScene: int)
      ensures Valid()
      ensures gameSceneVideoIndex == gameScene && introVideoBuildIndex == introScene
      ensures currentScreenIndex == 0 && !isFocused && canAnimateTabs
      ensures inputDeviceType == KeyboardMouse && lastFocused == None
    {
      gameSceneVideoIndex := gameScene;
      introVideoBuildIndex := introScene;
      currentScreenIndex := 0;
      isFocused := false;
      canAnimateTabs := true;
      inputDeviceType := KeyboardMouse;
      lastFocused := None;
    }

    /** ClearButtonFocus: deselects the focused button; the only handler that clears the focus flag. */
    method ClearButtonFocus() returns (effects: seq<MenuEffect>)
      modifies this`isFocused
      ensures !isFocused
      ensures effects == [ClearSelection]
    {
      effects := [ClearSelection];
      isFocused := false;
    }

    /** ChangeButtonFocus: focuses a button and remembers it. */
    method ChangeButtonFocus(button: MenuButton) returns (effects: seq<MenuEffect>)
      modifies this`lastFocused
      ensures lastFocused == Some(button)
      ensures effects == [Focus(button)]
    {
      effects := [Focus(button)];
      lastFocused := Some(button);
    }

    /**
     * ControllerUsed: nothing while a button is focused; otherwise marks the
     * menu focused and focuses the remembered button, or the screen's default.
     */
    method ControllerUsed() returns (effects: seq<MenuEffect>)
      modifies this`isFocused
      ensures isFocused
      ensures old(isFocused) ==> effects == []
      ensures !old(isFocused) ==>
        effects == (match ControllerFocus(lastFocused, currentScreenIndex)
                    case Some(b) => [Focus(b)]
                    case None => [])
    {
      if isFocused {
        return [];
      }
      isFocused := true;
      effects := [];
      if lastFocused.Some? {
        effects := [Focus(lastFocused.value)];
      } else if currentScreenIndex == 0 {
        effects := [Focus(NewGameButton)];
      } else if currentScreenIndex == 1 {
        effects := [Focus(AudioButton)];
      }
    }

    /** CloseSplashScreen: from the splash screen to the main screen, focusing New Game. */
    method CloseSplashScreen() returns (effects: seq<MenuEffect>)
      modifies this`currentScreenIndex
      ensures currentScreenIndex == NextScreen(old(currentScreenIndex), StartInput)
      ensures effects == if old(currentScreenIndex) == 0 then [Focus(NewGameButton)] else []
    {
      effects := [];
      if currentScreenIndex == 0 {
        currentScreenIndex := 1;
        effects := [Focus(NewGameButton)];
      }
    }

    /** ContinueButtonClicked: loads the game's video scene, on the main screen only. */
    method ContinueButtonClicked() returns (effects: seq<MenuEffect>)
      ensures effects == if currentScreenIndex == 1 then [LoadScene(gameSceneVideoIndex)] else []
    {
      effects := [];
      if currentScreenIndex == 1 {
        effects := [LoadScene(gameSceneVideoIndex)];
      }
    }

    /** SettingsButtonClicked: from the main screen to the settings selection. */
    method SettingsButtonClicked() returns (effects: seq<MenuEffect>)
      modifies this`currentScreenIndex
      ensures currentScreenIndex == NextScreen(old(currentScreenIndex), SettingsClick)
      ensures effects == if old(currentScreenIndex) == 1 then [ShowPrompts(Prompts(2, inputDeviceType))] else []
    {
      effects := [];
      if currentScreenIndex == 1 {
        currentScreenIndex := 2;
        effects := [ShowPrompts(Prompts(currentScreenIndex, inputDeviceType))];
      }
    }

    /** AudioButtonClicked: from the settings selection to the audio submenu. */
    method AudioButtonClicked() returns (effects: seq<MenuEffect>)
      modifies this`currentScreenIndex
      ensures currentScreenIndex == NextScreen(old(currentScreenIndex), AudioClick)
      ensures effects == if old(currentScreenIndex) == 2 then [ShowPrompts(Prompts(3, inputDeviceType))] else []
    {
      effects := [];
      if currentScreenIndex == 2 {
        currentScreenIndex := 3;
        effects := [ShowPrompts(Prompts(currentScreenIndex, inputDeviceType))];
      }
    }

    /** ControlsButtonClicked: from the settings selection to the controls submenu. */
    method ControlsButtonClicked() returns (effects: seq<MenuEffect>)
      modifies this`currentScreenIndex
      ensures currentScreenIndex == NextScreen(old(currentScreenIndex), ControlsClick)
      ensures effects == if old(currentScreenIndex) == 2 then [ShowPrompts(Prompts(3, inputDeviceType))] else []
    {
      effects := [];
      if currentScreenIndex == 2 {
        currentScreenIndex := 3;
        effects := [ShowPrompts(Prompts(currentScreenIndex, inputDeviceType))];
      }
    }

    /**
     * AnimateTab: starts a tab animation towards the target width, and does
     * nothing while tab animation is disabled.
     */
    method AnimateTab(isActive: bool, extendNewGame: bool) returns (effects: seq<MenuEffect>)
      ensures effects == if canAnimateTabs then [ScaleTab(TabTarget(isActive, extendNewGame))] else []
    {
      effects := [];
      if canAnimateTabs {
        if extendNewGame {
          effects := [ScaleTab(ExtendedTabWidth)];
        } else if isActive {
          effects := [ScaleTab(ActiveTabWidth)];
        } else {
          effects := [ScaleTab(HiddenTabWidth)];
        }
      }
    }

    /**
     * NewGameButtonClicked: on the main screen, extends the New Game tab for
     * the confirmation, then disables tab animation and the other buttons.
     */
    method NewGameButtonClicked() returns (effects: seq<MenuEffect>)
      modifies this`canAnimateTabs
      ensures old(currentScreenIndex) == 1 ==> !canAnimateTabs
      ensures old(currentScreenIndex) != 1 ==> canAnimateTabs == old(canAnimateTabs)
      ensures effects == if currentScreenIndex == 1 then
        (if old(canAnimateTabs) then [ScaleTab(ExtendedTabWidth)] else []) + [SetButtonsEnabled(false)]
        else []
    {
      effects := [];
      if currentScreenIndex == 1 {
        effects := AnimateTab(true, true);
        canAnimateTabs := false;
        effects := effects + [SetButtonsEnabled(false)];
      }
    }

    /** StartNewGame: deletes the save when there is a save manager, then loads the intro. */
    method StartNewGame(saveManagerPresent: bool) returns (effects: seq<MenuEffect>)
      ensures effects == (if saveManagerPresent then [DeleteSaveData] else []) + [LoadScene(introVideoBuildIndex)]
    {
      effects := [];
      if saveManagerPresent {
        effects := [DeleteSaveData];
      }
      effects := effects + [LoadScene(introVideoBuildIndex)];
    }

    /**
     * ConfirmNoButtonClicked: re-enables tab animation first, so the New Game
     * tab is always retracted, then re-enables the buttons.
     */
    method ConfirmNoButtonClicked() returns (effects: seq<MenuEffect>)
      modifies this`canAnimateTabs
      ensures canAnimateTabs
      ensures effects == [ScaleTab(HiddenTabWidth), SetButtonsEnabled(true)]
    {
      canAnimateTabs := true;
      effects := AnimateTab(false, false);
      effects := effects + [SetButtonsEnabled(true)];
    }

    /** QuitButtonClicked: quits, on the main screen only. */
    method QuitButtonClicked() returns (effects: seq<MenuEffect>)
      ensures effects == if currentScreenIndex == 1 then [QuitApplication] else []
    {
      effects := [];
      if currentScreenIndex == 1 {
        effects := [QuitApplication];
      }
    }

    /**
     * BackButtonClicked: from the settings selection to the main screen, or
     * from a submenu to the settings selection after committing the slider
     * values when there is a settings manager.
     */
    method BackButtonClicked(settingsManagerPresent: bool) returns (effects: seq<MenuEffect>)
      modifies this`currentScreenIndex
      ensures currentScreenIndex == NextScreen(old(currentScreenIndex), BackInput)
      ensures effects == if old(currentScreenIndex) == 3 then
        (if settingsManagerPresent then [CommitSettings] else []) + [ShowPrompts(Prompts(2, inputDeviceType))]
        else []
    {
      effects := [];
      if currentScreenIndex == 2 {
        currentScreenIndex := 1;
      } else if currentScreenIndex == 3 {
        currentScreenIndex := 2;
        if settingsManagerPresent {
          effects := [CommitSettings];
        }
        effects := effects + [ShowPrompts(Prompts(currentScreenIndex, inputDeviceType))];
      }
    }

    /**
     * DetectInputType: classifies the device that produced the input and
     * refreshes the prompts only when the class changed.
     */
    method DetectInputType(displayName: string) returns (effects: seq<MenuEffect>)
      modifies this`inputDeviceType
      ensures inputDeviceType == Classify(displayName)
      ensures effects == if inputDeviceType == old(inputDeviceType) then []
                         else [ShowPrompts(Prompts(currentScreenIndex, inputDeviceType))]
    {
      var newDevice := Classify(displayName);
      if newDevice == inputDeviceType {
        return [];
      }
      inputDeviceType := newDevice;
      effects := [ShowPrompts(Prompts(currentScreenIndex, inputDeviceType))];
    }
  }
}
