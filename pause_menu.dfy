/**
 * The in-game pause menu (PauseMenu): the pause screen (0), the settings
 * selection (1) and a settings submenu (2). The pause input pauses the game,
 * walks back through the screens, and finally unpauses; pausing stops time
 * and frees the cursor.
 *
 * Widgets, sliders, the player's input bindings, the dialogue menu, the
 * settings manager and the scene manager are outside this model: the
 * player's input state and the dialogue menu's visibility are parameters, and
 * what the menu asks of the others is returned as an ordered list of effects.
 */
module PauseMenus {
  import opened Common
  import opened InputDevices

  /** The buttons the pause menu focuses. */
  datatype PauseButton = ContinueButton | SettingsButton | ExitButton | AudioButton | ControlsButton

  /** The controller pause icons the escape label can show (the player's UI sprites). */
  datatype PauseIcon = XboxPauseIcon | PsPauseIcon

  /** The escape label of the pause screen: its text and its background image. */
  datatype EscapeLabel = EscapeLabel(text: string, image: Option<PauseIcon>)

  /** The text and the background image of one back prompt. */
  datatype BackPrompt = BackPrompt(text: string, image: Option<BackImage>)

  /** What UpdateInputPrompts gives each of the four back prompts. */
  datatype PausePrompts = PausePrompts(pause: BackPrompt, settings: BackPrompt, audio: BackPrompt, controls: BackPrompt)

  /** Calls the menu makes into the engine and the settings manager, in order. */
  datatype PauseEffect =
    | LoadScene(index: int)
    | CommitSettings            // slider values written back to the settings manager
    | Focus(button: PauseButton)
    | ClearSelection            // the event system's selected object set to none
    | ShowPrompts(prompts: PausePrompts)

  /** The pause flag and the screen index together. */
  datatype PauseView = PauseView(paused: bool, screen: int)

  /** The pause input's effect on the pause flag and the screen. */
  function PausePress(v: PauseView): (w: PauseView)
    ensures !v.paused ==> w == PauseView(true, v.screen)
    ensures v.paused && v.screen == 0 ==> w == PauseView(false, 0)
    ensures v.paused && v.screen in {1, 2} ==> w == PauseView(true, v.screen - 1)
    ensures 0 <= v.screen <= 2 ==> 0 <= w.screen <= 2
  {
    if !v.paused then PauseView(true, v.screen)
    else if v.screen == 0 then PauseView(false, v.screen)
    else if v.screen == 1 then PauseView(true, 0)
    else if v.screen == 2 then PauseView(true, 1)
    else v
  }

  /** The view after k pause inputs. */
  function Presses(v: PauseView, k: nat): PauseView
    decreases k
  {
    if k == 0 then v else Presses(PausePress(v), k - 1)
  }

  /**
   * From a paused menu on screen s, the pause input walks back one screen at
   * a time: the game stays paused for s inputs and is unpaused by the next.
   */
  lemma {:induction false} PressesUnpause(s: int, k: nat)
    requires 0 <= s <= 2
    ensures k <= s ==> Presses(PauseView(true, s), k) == PauseView(true, s - k)
    ensures Presses(PauseView(true, s), s + 1) == PauseView(false, 0)
  {
    if s > 0 {
      PressesUnpause(s - 1, if k == 0 then 0 else k - 1);
    }
  }

  /**
   * Pausing keeps the screen the menu was last left on, so from screen s
   * the game is paused by the first input, stays paused through the next s,
   * and is unpaused, back on the pause screen, by input s + 2.
   */
  lemma PauseRoundTrip(s: int, k: nat)
    requires 0 <= s <= 2
    ensures 1 <= k <= s + 1 ==> Presses(PauseView(false, s), k).paused
    ensures Presses(PauseView(false, s), s + 2) == PauseView(false, 0)
  {
    PressesUnpause(s, s + 1);
    if 1 <= k <= s + 1 {
      PressesUnpause(s, k - 1);
    }
  }

  /** The screen index stays in {0, 1, 2} under any number of pause inputs. */
  lemma {:induction false} PressesStayInRange(v: PauseView, k: nat)
    requires 0 <= v.screen <= 2
    ensures 0 <= Presses(v, k).screen <= 2
    decreases k
  {
    if k > 0 {
      PressesStayInRange(PausePress(v), k - 1);
    }
  }

  /**
   * TogglePauseMenu's escape-label overrides when pausing: the mouse sets the
   * text "Esc"; a PlayStation input then clears it and shows the PlayStation
   * icon; an Xbox input then clears it and shows the Xbox icon.
   */
  function EscapeOverride(current: EscapeLabel, lookTriggered: bool, psTriggered: bool, xboxTriggered: bool)
    : (r: EscapeLabel)
    ensures xboxTriggered ==> r == EscapeLabel("", Some(XboxPauseIcon))
    ensures !xboxTriggered && psTriggered ==> r == EscapeLabel("", Some(PsPauseIcon))
    ensures !xboxTriggered && !psTriggered && lookTriggered ==> r == current.(text := "Esc")
    ensures !xboxTriggered && !psTriggered && !lookTriggered ==> r == current
  {
    var afterLook := if lookTriggered then current.(text := "Esc") else current;
    var afterPs := if psTriggered then EscapeLabel("", Some(PsPauseIcon)) else afterLook;
    if xboxTriggered then EscapeLabel("", Some(XboxPauseIcon)) else afterPs
  }

  /** One back prompt for a device: "Esc" and no image for keyboard and mouse, otherwise the controller's image. */
  function PromptFor(device: Device): (p: BackPrompt)
    ensures p.text == "Esc" <==> device == KeyboardMouse
    ensures p.text == "" <==> device != KeyboardMouse
    ensures p.image == BackImageFor(device)
  {
    BackPrompt(if device == KeyboardMouse then "Esc" else "", BackImageFor(device))
  }

  /** UpdateInputPrompts: all four back prompts follow the device alike. */
  function Prompts(device: Device): (p: PausePrompts)
    ensures p.pause == p.settings == p.audio == p.controls == PromptFor(device)
  {
    var b := PromptFor(device);
    PausePrompts(b, b, b, b)
  }

  /** Distinct devices give distinct prompts: the prompts identify the device. */
  lemma PromptsIdentifyDevice(d: Device, e: Device)
    ensures Prompts(d) == Prompts(e) ==> d == e
  {
    if Prompts(d) == Prompts(e) {
      assert PromptFor(d).image == PromptFor(e).image;
    }
  }

  /** Cursor visibility and lock after TogglePauseMenu. */
  datatype CursorState = CursorState(visible: bool, locked: bool)

  /**
   * During dialogue the cursor stays visible and unlocked; otherwise it is
   * visible and unlocked exactly while the menu is open.
   */
  function CursorFor(isActive: bool, dialogueVisible: bool): (c: CursorState)
    ensures c.visible == !c.locked
    ensures c.visible <==> isActive || dialogueVisible
  {
    if dialogueVisible then CursorState(true, false) else CursorState(isActive, !isActive)
  }

  /** A non-positive tab animation time is replaced with the default 0.25. */
  function ClampTabTime(t: real): (r: real)
    ensures r > 0.0
    ensures t > 0.0 ==> r == t
    ensures t <= 0.0 ==> r == 0.25
  {
    if t <= 0.0 then 0.25 else t
  }

  /** The button ControllerUsed focuses, if any. */
  function ControllerFocus(lastFocused: Option<PauseButton>, screen: int): (b: Option<PauseButton>)
    ensures lastFocused.Some? ==> b == lastFocused
    ensures lastFocused.None? && screen == 0 ==> b == Some(ContinueButton)
    ensures lastFocused.None? && screen == 1 ==> b == Some(AudioButton)
    ensures b == None <==> lastFocused.None? && screen !in {0, 1}
  {
    if lastFocused.Some? then lastFocused
    else if screen == 0 then Some(ContinueButton)
    else if screen == 1 then Some(AudioButton)
    else None
  }

  /** PauseMenu. */
  class PauseMenu {
    var isGamePaused: bool
    var currentScreenIndex: int
    var timeScale: real                 // Time.timeScale
    var menuVisible: bool
    var cursor: CursorState
    var escapeLabel: EscapeLabel
    var isFocused: bool
    var lastFocused: Option<PauseButton>  // _lastFocusedVisualElement
    var inputDeviceType: Device
    var tabAnimationTime: real

    /** The screen index is one of the three screens. */
    predicate Valid()
      reads this
    {
      0 <= currentScreenIndex <= 2
    }

    constructor (tabTime: real, escape: EscapeLabel)
      ensures Valid()
      ensures !isGamePaused && currentScreenIndex == 0 && timeScale == 1.0
      ensures !isFocused && lastFocused == None && inputDeviceType == KeyboardMouse
      ensures tabAnimationTime == tabTime && escapeLabel == escape
    {
      isGamePaused := false;
      currentScreenIndex := 0;
      timeScale := 1.0;
      menuVisible := false;
      cursor := CursorState(false, true);
      escapeLabel := escape;
      isFocused := false;
      lastFocused := None;
      inputDeviceType := KeyboardMouse;
      tabAnimationTime := tabTime;
    }

    /** The clamp in Awake: a non-positive animation time becomes 0.25. */
    method ClampTabAnimationTime()
      modifies this`tabAnimationTime
      ensures tabAnimationTime == ClampTabTime(old(tabAnimationTime))
    {
      if tabAnimationTime <= 0.0 {
        tabAnimationTime := 0.25;
      }
    }

    /**
     * TogglePauseMenu: sets the pause flag, stops or restarts time, shows or
     * hides the menu, places the cursor, and when pausing focuses Continue
     * and applies the escape-label overrides. The screen index is untouched.
     */
    method TogglePauseMenu(isActive: bool, dialogueVisible: bool, lookTriggered: bool, psTriggered: bool,
                           xboxTriggered: bool) returns (effects: seq<PauseEffect>)
      modifies this`isGamePaused, this`timeScale, this`menuVisible, this`cursor, this`escapeLabel
      ensures isGamePaused == isActive
      ensures timeScale == if isActive then 0.0 else 1.0
      ensures menuVisible == isActive
      ensures cursor == CursorFor(isActive, dialogueVisible)
      ensures escapeLabel == if isActive then EscapeOverride(old(escapeLabel), lookTriggered, psTriggered, xboxTriggered)
                             else old(escapeLabel)
      ensures effects == if isActive then [Focus(ContinueButton)] else []
    {
      isGamePaused := isActive;
      effects := [];
      if isActive {
        effects := [Focus(ContinueButton)];
        if lookTriggered {
          escapeLabel := escapeLabel.(text := "Esc");
        }
        if psTriggered {
          escapeLabel := EscapeLabel("", Some(PsPauseIcon));
        }
        if xboxTriggered {
          escapeLabel := EscapeLabel("", Some(XboxPauseIcon));
        }
      }
      if dialogueVisible {
        cursor := CursorState(true, false);
      } else {
        cursor := CursorState(isActive, !isActive);
      }
      menuVisible := isActive;
      timeScale := if isActive then 0.0 else 1.0;
    }

    /**
     * PauseGamePerformed: pauses a running game; on a paused game, unpauses
     * from the pause screen, returns from the settings selection to the pause
     * screen, or commits the settings and returns from a submenu to the
     * settings selection.
     */
    method PauseGamePerformed(settingsManagerPresent: bool, dialogueVisible: bool, lookTriggered: bool,
                              psTriggered: bool, xboxTriggered: bool) returns (effects: seq<PauseEffect>)
      modifies this`isGamePaused, this`timeScale, this`menuVisible, this`cursor, this`escapeLabel,
               this`currentScreenIndex
      ensures PauseView(isGamePaused, currentScreenIndex)
              == PausePress(PauseView(old(isGamePaused), old(currentScreenIndex)))
      // pausing opens the menu as TogglePauseMenu(true) does
      ensures !old(isGamePaused) ==>
        && timeScale == 0.0 && menuVisible && effects == [Focus(ContinueButton)]
        && cursor == CursorFor(true, dialogueVisible)
        && escapeLabel == EscapeOverride(old(escapeLabel), lookTriggered, psTriggered, xboxTriggered)
      // unpausing from the pause screen closes it as TogglePauseMenu(false) does
      ensures old(isGamePaused) && old(currentScreenIndex) == 0 ==>
        && timeScale == 1.0 && !menuVisible && effects == []
        && cursor == CursorFor(false, dialogueVisible)
        && escapeLabel == old(escapeLabel)
      // going back a screen touches neither time, the menu, the cursor nor the label
      ensures old(isGamePaused) && old(currentScreenIndex) != 0 ==>
        && timeScale == old(timeScale) && menuVisible == old(menuVisible)
        && cursor == old(cursor) && escapeLabel == old(escapeLabel)
        && effects == (if old(currentScreenIndex) == 2 && settingsManagerPresent then [CommitSettings] else [])
      ensures CommitSettings in effects <==>
              old(isGamePaused) && old(currentScreenIndex) == 2 && settingsManagerPresent
    {
      effects := [];
      if !isGamePaused {
        effects := TogglePauseMenu(true, dialogueVisible, lookTriggered, psTriggered, xboxTriggered);
      } else if currentScreenIndex == 0 {
        effects := TogglePauseMenu(false, dialogueVisible, lookTriggered, psTriggered, xboxTriggered);
      } else if currentScreenIndex == 1 {
        currentScreenIndex := 0;
      } else if currentScreenIndex == 2 {
        currentScreenIndex := 1;
        if settingsManagerPresent {
          effects := [CommitSettings];
        }
      }
    }

    /** ClearButtonFocus: deselects the focused button; the only handler that clears the focus flag. */
    method ClearButtonFocus() returns (effects: seq<PauseEffect>)
      modifies this`isFocused
      ensures !isFocused
      ensures effects == [ClearSelection]
    {
      effects := [ClearSelection];
      isFocused := false;
    }

    /** ChangeButtonFocus: focuses a button and remembers it. */
    method ChangeButtonFocus(button: PauseButton) returns (effects: seq<PauseEffect>)
      modifies this`lastFocused
      ensures lastFocused == Some(button)
      ensures effects == [Focus(button)]
    {
      effects := [Focus(button)];
      lastFocused := Some(button);
    }

    /**
     * ControllerUsed: nothing while a button is focused; otherwise marks the
     * menu focused and focuses the remembered button, or the screen's default.
     */
    method ControllerUsed() returns (effects: seq<PauseEffect>)
      modifies this`isFocused
      ensures isFocused
      ensures old(isFocused) ==> effects == []
      ensures !old(isFocused) ==>
        effects == (match ControllerFocus(lastFocused, currentScreenIndex)
                    case Some(b) => [Focus(b)]
                    case None => [])
    {
      if isFocused {
        return [];
      }
      isFocused := true;
      effects := [];
      if lastFocused.Some? {
        effects := [Focus(lastFocused.value)];
      } else if currentScreenIndex == 0 {
        effects := [Focus(ContinueButton)];
      } else if currentScreenIndex == 1 {
        effects := [Focus(AudioButton)];
      }
    }

    /** ContinuePressed: closes the menu and resumes the game. */
    method ContinuePressed(dialogueVisible: bool) returns (effects: seq<PauseEffect>)
      modifies this`isGamePaused, this`timeScale, this`menuVisible, this`cursor, this`escapeLabel
      ensures !isGamePaused && timeScale == 1.0 && !menuVisible
      ensures cursor == CursorFor(false, dialogueVisible)
      ensures escapeLabel == old(escapeLabel)
      ensures effects == []
    {
      effects := TogglePauseMenu(false, dialogueVisible, false, false, false);
    }

    /** SettingsButtonClicked: to the settings selection, from whatever screen. */
    method SettingsButtonClicked()
      modifies this`currentScreenIndex
      ensures currentScreenIndex == 1
    {
      currentScreenIndex := 1;
    }

    /** AudioButtonClicked: to the audio submenu, from whatever screen. */
    method AudioButtonClicked()
      modifies this`currentScreenIndex
      ensures currentScreenIndex == 2
    {
      currentScreenIndex := 2;
    }

    /** ControlsButtonClicked: to the controls submenu, from whatever screen. */
    method ControlsButtonClicked()
      modifies this`currentScreenIndex
      ensures currentScreenIndex == 2
    {
      currentScreenIndex := 2;
    }

    /** ExitToMenu: restarts time before loading the main menu scene. */
    method ExitToMenu() returns (effects: seq<PauseEffect>)
      modifies this`timeScale
      ensures timeScale == 1.0
      ensures effects == [LoadScene(0)]
    {
      timeScale := 1.0;
      effects := [LoadScene(0)];
    }

    /**
     * DetectInputType: classifies the device that produced the input and
     * refreshes the prompts only when the class changed.
     */
    method DetectInputType(displayName: string) returns (effects: seq<PauseEffect>)
      modifies this`inputDeviceType
      ensures inputDeviceType == Classify(displayName)
      ensures effects == if inputDeviceType == old(inputDeviceType) then [] else [ShowPrompts(Prompts(inputDeviceType))]
    {
      var newDevice := Classify(displayName);
      if newDevice == inputDeviceType {
        return [];
      }
      inputDeviceType := newDevice;
      effects := [ShowPrompts(Prompts(inputDeviceType))];
    }
  }
}
