/**
 * The slideshow player (SlideshowManager): plays the intro, one of the
 * ending videos, and the credits. The intro player loads the level when its
 * video finishes; any other player queues the credits after the first finish
 * and loads the main menu after the next. Holding the skip input finishes the
 * video early, pressing it toggles play and pause.
 *
 * The video player, FMOD, the scene manager and the player controller are
 * outside this model: what the manager asks of them is returned as an
 * ordered list of effects.
 */
module Slideshow {
  import opened Common
  import opened InputDevices

  type ClipId = int       // a VideoClip asset
  type AudioId = int      // an FMOD event reference

  /** A video: its footage and its soundtrack. */
  datatype Video = Video(footage: ClipId, audio: AudioId)

  /** What UpdateInputPrompts shows: one skip prompt and meter pair per device class. */
  datatype SkipPrompts = SkipPrompts(keyboardShown: bool, xboxShown: bool, psShown: bool)

  /** Calls the manager makes, in order. */
  datatype SlideEffect =
    | LoadScene(index: int)
    | PrepareClip                 // the video player's Prepare on the selected clip
    | DisablePlayerController
    | StopAllSounds
    | LogError
    | ShowSlideshow
    | StopCurrentAudio
    | PlayAudio(audio: Option<AudioId>)   // None: the default, null event reference
    | ShowPrompts(prompts: SkipPrompts)
    | NullReference               // the missing video player is dereferenced; the handler stops here

  /** What a finished (or skipped) video leads to. */
  datatype Finish = LoadLevel | QueueCredits | LoadMenu

  /** DonePlaying's decision for a player and the credits flag. */
  function FinishOutcome(isIntroVideoPlayer: bool, wasCreditsShown: bool): (f: Finish)
    ensures f == LoadLevel <==> isIntroVideoPlayer
    ensures f == QueueCredits <==> !isIntroVideoPlayer && !wasCreditsShown
    ensures f == LoadMenu <==> !isIntroVideoPlayer && wasCreditsShown
  {
    if isIntroVideoPlayer then LoadLevel else if !wasCreditsShown then QueueCredits else LoadMenu
  }

  /** The credits flag after a finish. */
  function CreditsShownAfter(isIntroVideoPlayer: bool, wasCreditsShown: bool): (shown: bool)
    ensures shown <==> wasCreditsShown || FinishOutcome(isIntroVideoPlayer, wasCreditsShown) == QueueCredits
  {
    wasCreditsShown || !isIntroVideoPlayer
  }

  /** The decisions of k successive finishes. */
  function Finishes(isIntroVideoPlayer: bool, wasCreditsShown: bool, k: nat): (fs: seq<Finish>)
    ensures |fs| == k
    decreases k
  {
    if k == 0 then []
    else [FinishOutcome(isIntroVideoPlayer, wasCreditsShown)]
         + Finishes(isIntroVideoPlayer, CreditsShownAfter(isIntroVideoPlayer, wasCreditsShown), k - 1)
  }

  /**
   * The credits are queued at most once over any run of finishes: never once
   * shown, and exactly once when a non-intro player finishes at least once.
   */
  lemma {:induction false} CreditsAtMostOnce(isIntroVideoPlayer: bool, wasCreditsShown: bool, k: nat)
    ensures Occurrences(Finishes(isIntroVideoPlayer, wasCreditsShown, k), QueueCredits) <= 1
    ensures wasCreditsShown || isIntroVideoPlayer ==>
      Occurrences(Finishes(isIntroVideoPlayer, wasCreditsShown, k), QueueCredits) == 0
    ensures !wasCreditsShown && !isIntroVideoPlayer && k >= 1 ==>
      Occurrences(Finishes(isIntroVideoPlayer, wasCreditsShown, k), QueueCredits) == 1
    decreases k
  {
    if k > 0 {
      var fs := Finishes(isIntroVideoPlayer, wasCreditsShown, k);
      var after := CreditsShownAfter(isIntroVideoPlayer, wasCreditsShown);
      CreditsAtMostOnce(isIntroVideoPlayer, after, k - 1);
      assert fs[1..] == Finishes(isIntroVideoPlayer, after, k - 1);
    }
  }

  /** The intro player only ever loads the level. */
  lemma {:induction false} IntroAlwaysLoadsLevel(wasCreditsShown: bool, k: nat)
    ensures forall i :: 0 <= i < k ==> Finishes(true, wasCreditsShown, k)[i] == LoadLevel
    decreases k
  {
    if k > 0 {
      IntroAlwaysLoadsLevel(CreditsShownAfter(true, wasCreditsShown), k - 1);
    }
  }

  /** UpdateInputPrompts: the pair for the current device is shown, the other two are hidden. */
  function PromptsFor(device: Device): (p: SkipPrompts)
    ensures p.keyboardShown <==> Code(device) == 0
    ensures p.xboxShown <==> Code(device) == 1
    ensures p.psShown <==> Code(device) == 2
  {
    SkipPrompts(device == KeyboardMouse, device == Xbox, device == PlayStation)
  }

  /** SlideshowManager. */
  class SlideshowManager {
    const isIntroVideoPlayer: bool
    const levelSceneBuildIndex: int
    const mainMenuBuildIndex: int
    const introVideo: Video
    const endingVideos: seq<Video>
    const creditsVideo: Video
    const hasPlayer: bool               // _slideshowPlayer is set
    var selectedAudio: Option<AudioId>
    var clip: Option<ClipId>            // the video player's clip
    var wasCreditsShown: bool
    var isPlaying: bool
    var inputDeviceType: Device

    constructor (intro: bool, level: int, menu: int, introV: Video, endings: seq<Video>, credits: Video, player: bool)
      ensures isIntroVideoPlayer == intro && levelSceneBuildIndex == level && mainMenuBuildIndex == menu
      ensures introVideo == introV && endingVideos == endings && creditsVideo == credits && hasPlayer == player
      ensures selectedAudio == None && clip == None && !wasCreditsShown && !isPlaying
      ensures inputDeviceType == KeyboardMouse
    {
      isIntroVideoPlayer := intro;
      levelSceneBuildIndex := level;
      mainMenuBuildIndex := menu;
      introVideo := introV;
      endingVideos := endings;
      creditsVideo := credits;
      hasPlayer := player;
      selectedAudio := None;
      clip := None;
      wasCreditsShown := false;
      isPlaying := false;
      inputDeviceType := KeyboardMouse;
    }

    /** The calls a finish makes; a return to the menu loads it twice over. */
    function FinishEffects(f: Finish): (effects: seq<SlideEffect>)
      ensures PrepareClip in effects <==> f == QueueCredits
      ensures f != QueueCredits ==> forall e :: e in effects ==> e.LoadScene?
      ensures f == LoadLevel ==> LoadScene(levelSceneBuildIndex) in effects
      ensures f == LoadMenu ==> Occurrences(effects, LoadScene(mainMenuBuildIndex)) == 2
    {
      match f
      case LoadLevel => [LoadScene(levelSceneBuildIndex)]
      case QueueCredits => [PrepareClip]
      case LoadMenu => [LoadScene(mainMenuBuildIndex), LoadScene(mainMenuBuildIndex)]
    }

    /** Whether finishing with `f` dereferences a missing video player: only queuing the credits touches it. */
    predicate FinishThrows(f: Finish)
    {
      !hasPlayer && f == QueueCredits
    }

    /**
     * DonePlaying: the intro player loads the level; any other player queues
     * the credits the first time and loads the main menu (twice over) after.
     * Without a video player, queuing the credits throws once the audio is
     * selected, before the credits flag is set.
     */
    method DonePlaying() returns (effects: seq<SlideEffect>)
      modifies this`selectedAudio, this`clip, this`wasCreditsShown
      ensures !FinishThrows(FinishOutcome(isIntroVideoPlayer, old(wasCreditsShown))) ==>
        && wasCreditsShown == CreditsShownAfter(isIntroVideoPlayer, old(wasCreditsShown))
        && effects == FinishEffects(FinishOutcome(isIntroVideoPlayer, old(wasCreditsShown)))
      ensures FinishThrows(FinishOutcome(isIntroVideoPlayer, old(wasCreditsShown))) ==>
        wasCreditsShown == old(wasCreditsShown) && effects == [NullReference]
      ensures FinishOutcome(isIntroVideoPlayer, old(wasCreditsShown)) == QueueCredits ==>
        && selectedAudio == Some(creditsVideo.audio)
        && clip == (if hasPlayer then Some(creditsVideo.footage) else old(clip))
      ensures FinishOutcome(isIntroVideoPlayer, old(wasCreditsShown)) != QueueCredits ==>
        selectedAudio == old(selectedAudio) && clip == old(clip)
    {
      if isIntroVideoPlayer {
        effects := [LoadScene(levelSceneBuildIndex)];
      } else if !wasCreditsShown {
        selectedAudio := Some(creditsVideo.audio);
        if !hasPlayer {
          return [NullReference];
        }
        clip := Some(creditsVideo.footage);
        effects := [PrepareClip];
        wasCreditsShown := true;
      } else {
        effects := [LoadScene(mainMenuBuildIndex)];
        effects := effects + [LoadScene(mainMenuBuildIndex)];
      }
    }

    /** PlayVideo, once a clip is prepared: shows the slideshow, swaps the soundtrack and plays. */
    method PlayVideo() returns (effects: seq<SlideEffect>)
      modifies this`isPlaying
      ensures isPlaying
      ensures effects == [ShowSlideshow, StopCurrentAudio, PlayAudio(selectedAudio)]
    {
      effects := [ShowSlideshow, StopCurrentAudio, PlayAudio(selectedAudio)];
      isPlaying := true;
    }

    /**
     * PlayIntroSlideshow: selects the intro video and prepares it; without a
     * video player it throws once the audio is selected.
     */
    method PlayIntroSlideshow() returns (effects: seq<SlideEffect>)
      modifies this`selectedAudio, this`clip
      ensures selectedAudio == Some(introVideo.audio)
      ensures clip == if hasPlayer then Some(introVideo.footage) else old(clip)
      ensures effects == if hasPlayer then [PrepareClip] else [NullReference]
    {
      selectedAudio := Some(introVideo.audio);
      if !hasPlayer {
        return [NullReference];
      }
      clip := Some(introVideo.footage);
      effects := [PrepareClip];
    }

    /**
     * PlayEndingSlideshow: for an index within the ending videos, disables
     * the player, stops all sounds and prepares that video; otherwise only
     * logs an error. Without a video player it throws once the audio is
     * selected.
     */
    method PlayEndingSlideshow(videoIndex: int) returns (effects: seq<SlideEffect>)
      modifies this`selectedAudio, this`clip
      ensures 0 <= videoIndex < |endingVideos| ==>
        && selectedAudio == Some(endingVideos[videoIndex].audio)
        && clip == (if hasPlayer then Some(endingVideos[videoIndex].footage) else old(clip))
        && effects == [DisablePlayerController, StopAllSounds, if hasPlayer then PrepareClip else NullReference]
      ensures !(0 <= videoIndex < |endingVideos|) ==>
        selectedAudio == old(selectedAudio) && clip == old(clip) && effects == [LogError]
    {
      if videoIndex < |endingVideos| && videoIndex >= 0 {
        effects := [DisablePlayerController, StopAllSounds];
        selectedAudio := Some(endingVideos[videoIndex].audio);
        if !hasPlayer {
          return effects + [NullReference];
        }
        clip := Some(endingVideos[videoIndex].footage);
        effects := effects + [PrepareClip];
      } else {
        effects := [LogError];
      }
    }

    /** TogglePlayPause: flips between playing and paused; nothing without a player. */
    method TogglePlayPause()
      modifies this`isPlaying
      ensures isPlaying == (if hasPlayer then !old(isPlaying) else old(isPlaying))
    {
      if hasPlayer {
        if isPlaying {
          isPlaying := false;
        } else {
          isPlaying := true;
        }
      }
    }

    /** OnSkipVideo: skipping is finishing, with the player that may be missing. */
    method OnSkipVideo() returns (effects: seq<SlideEffect>)
      modifies this`selectedAudio, this`clip, this`wasCreditsShown
      ensures !FinishThrows(FinishOutcome(isIntroVideoPlayer, old(wasCreditsShown))) ==>
        && wasCreditsShown == CreditsShownAfter(isIntroVideoPlayer, old(wasCreditsShown))
        && effects == FinishEffects(FinishOutcome(isIntroVideoPlayer, old(wasCreditsShown)))
      ensures FinishThrows(FinishOutcome(isIntroVideoPlayer, old(wasCreditsShown))) ==>
        wasCreditsShown == old(wasCreditsShown) && effects == [NullReference]
      ensures FinishOutcome(isIntroVideoPlayer, old(wasCreditsShown)) == QueueCredits ==>
        && selectedAudio == Some(creditsVideo.audio)
        && clip == (if hasPlayer then Some(creditsVideo.footage) else old(clip))
      ensures FinishOutcome(isIntroVideoPlayer, old(wasCreditsShown)) != QueueCredits ==>
        selectedAudio == old(selectedAudio) && clip == old(clip)
    {
      effects := DonePlaying();
    }

    /** The skip input's performed handler: a hold skips, anything else toggles play and pause. */
    method SkipPerformed(isHold: bool) returns (effects: seq<SlideEffect>)
      modifies this`selectedAudio, this`clip, this`wasCreditsShown, this`isPlaying
      ensures isHold ==> isPlaying == old(isPlaying)
      ensures isHold && !FinishThrows(FinishOutcome(isIntroVideoPlayer, old(wasCreditsShown))) ==>
        && wasCreditsShown == CreditsShownAfter(isIntroVideoPlayer, old(wasCreditsShown))
        && effects == FinishEffects(FinishOutcome(isIntroVideoPlayer, old(wasCreditsShown)))
      ensures isHold && FinishThrows(FinishOutcome(isIntroVideoPlayer, old(wasCreditsShown))) ==>
        wasCreditsShown == old(wasCreditsShown) && effects == [NullReference]
      ensures isHold && FinishOutcome(isIntroVideoPlayer, old(wasCreditsShown)) == QueueCredits ==>
        && selectedAudio == Some(creditsVideo.audio)
        && clip == (if hasPlayer then Some(creditsVideo.footage) else old(clip))
      ensures !(isHold && FinishOutcome(isIntroVideoPlayer, old(wasCreditsShown)) == QueueCredits) ==>
        selectedAudio == old(selectedAudio) && clip == old(clip)
      ensures !isHold ==> wasCreditsShown == old(wasCreditsShown) && effects == []
                          && isPlaying == (if hasPlayer then !old(isPlaying) else old(isPlaying))
    {
      if isHold {
        effects := OnSkipVideo();
      } else {
        TogglePlayPause();
        effects := [];
      }
    }

    /**
     * DetectInputType: classifies the device that produced the input and
     * refreshes the prompts only when the class changed.
     */
    method DetectInputType(displayName: string) returns (effects: seq<SlideEffect>)
      modifies this`inputDeviceType
      ensures inputDeviceType == Classify(displayName)
      ensures effects == if inputDeviceType == old(inputDeviceType) then [] else [ShowPrompts(PromptsFor(inputDeviceType))]
    {
      var newDevice := Classify(displayName);
      if newDevice == inputDeviceType {
        return [];
      }
      inputDeviceType := newDevice;
      effects := [ShowPrompts(PromptsFor(inputDeviceType))];
    }
  }
}
