/**
 * The input-device classification shared by the main menu, the pause menu and
 * the slideshow player: the display name of the device that produced the last
 * input is lower-cased and searched for brand names.
 */
module InputDevices {
  import opened Common

  /** The three classes the menus distinguish (stored as 0, 1 and 2 in the game). */
  datatype Device = KeyboardMouse | Xbox | PlayStation

  /** The integer code the game stores for each class. */
  function Code(d: Device): (c: int)
    ensures 0 <= c <= 2
  {
    match d
    case KeyboardMouse => 0
    case Xbox => 1
    case PlayStation => 2
  }

  /** The two controller back-button images the menus can show. */
  datatype BackImage = XboxBack | PsBack

  /**
   * The image a controller prompt gets for a device: none for keyboard and
   * mouse, the Xbox image for an Xbox controller, the PlayStation image for
   * anything else.
   */
  function BackImageFor(d: Device): (r: Option<BackImage>)
    ensures r == None <==> d == KeyboardMouse
    ensures r == Some(XboxBack) <==> d == Xbox
    ensures r == Some(PsBack) <==> d == PlayStation
  {
    match d
    case KeyboardMouse => None
    case Xbox => Some(XboxBack)
    case PlayStation => Some(PsBack)
  }

  /** Lower-cases one character (ASCII letters only). */
  function LowerChar(c: char): char {
    if 'A' <= c <= 'Z' then (c as int - 'A' as int + 'a' as int) as char else c
  }

  /** Lower-cases a string character by character. */
  function ToLower(s: string): (r: string)
    ensures |r| == |s|
    ensures forall i :: 0 <= i < |s| ==> r[i] == LowerChar(s[i])
  {
    if s == [] then [] else [LowerChar(s[0])] + ToLower(s[1..])
  }

  lemma LowerCharIdempotent(c: char)
    ensures LowerChar(LowerChar(c)) == LowerChar(c)
  {
  }

  /** Lower-casing twice is lower-casing once. */
  lemma ToLowerIdempotent(s: string)
    ensures ToLower(ToLower(s)) == ToLower(s)
  {
    var once := ToLower(s);
    var twice := ToLower(once);
    forall i | 0 <= i < |s|
      ensures twice[i] == once[i]
    {
      LowerCharIdempotent(s[i]);
    }
  }

  /** `t` occurs in `s` starting at position `i`. */
  ghost predicate OccursAt(s: string, t: string, i: int) {
    0 <= i && i + |t| <= |s| && s[i..i + |t|] == t
  }

  /** Reference definition of substring search: some position holds `t`. */
  ghost predicate HasSubstring(s: string, t: string) {
    exists i :: OccursAt(s, t, i)
  }

  /** Substring search as a scan over the start positions. */
  function Contains(s: string, t: string): bool
    decreases |s|
  {
    if |t| <= |s| && t == s[..|t|] then true
    else if |s| <= |t| then false
    else Contains(s[1..], t)
  }

  /** The scan agrees with the reference definition, in both directions. */
  lemma {:induction false} ContainsCorrect(s: string, t: string)
    ensures Contains(s, t) <==> HasSubstring(s, t)
    decreases |s|
  {
    if |t| <= |s| && t == s[..|t|] {
      assert OccursAt(s, t, 0);
    } else if |s| <= |t| {
    } else {
      ContainsCorrect(s[1..], t);
      if HasSubstring(s, t) {
        var i :| OccursAt(s, t, i);
        if i > 0 {
          assert s[1..][i - 1..i - 1 + |t|] == s[i..i + |t|];
          assert OccursAt(s[1..], t, i - 1);
        }
      }
      if HasSubstring(s[1..], t) {
        var j :| OccursAt(s[1..], t, j);
        assert s[1..][j..j + |t|] == s[j + 1..j + 1 + |t|];
        assert OccursAt(s, t, j + 1);
      }
    }
  }

  /** The brand names that mark a PlayStation controller. */
  predicate NamesPlayStation(lower: string) {
    Contains(lower, "playstation") || Contains(lower, "dualsense") || Contains(lower, "dualshock")
  }

  /**
   * DetectInputType's classification: "xbox" anywhere in the lower-cased name
   * wins; otherwise any of the three PlayStation names; otherwise keyboard and
   * mouse.
   */
  function Classify(displayName: string): (d: Device)
    ensures d == Xbox <==> HasSubstring(ToLower(displayName), "xbox")
    ensures d == PlayStation <==>
      !HasSubstring(ToLower(displayName), "xbox") &&
      (HasSubstring(ToLower(displayName), "playstation") ||
       HasSubstring(ToLower(displayName), "dualsense") ||
       HasSubstring(ToLower(displayName), "dualshock"))
  {
    var lower := ToLower(displayName);
    ContainsCorrect(lower, "xbox");
    ContainsCorrect(lower, "playstation");
    ContainsCorrect(lower, "dualsense");
    ContainsCorrect(lower, "dualshock");
    if Contains(lower, "xbox") then Xbox
    else if NamesPlayStation(lower) then PlayStation
    else KeyboardMouse
  }

  /** The classification ignores letter case. */
  lemma ClassifyIgnoresCase(displayName: string)
    ensures Classify(ToLower(displayName)) == Classify(displayName)
  {
    ToLowerIdempotent(displayName);
  }

  /** A name mentioning both brands is an Xbox controller: the Xbox test comes first. */
  lemma XboxTestComesFirst(displayName: string)
    requires HasSubstring(ToLower(displayName), "xbox")
    requires HasSubstring(ToLower(displayName), "dualshock")
    ensures Classify(displayName) == Xbox
  {
  }

  /** Lower-casing distributes over concatenation. */
  lemma ToLowerAppend(a: string, b: string)
    ensures ToLower(a + b) == ToLower(a) + ToLower(b)
  {
    var l := ToLower(a + b);
    var r := ToLower(a) + ToLower(b);
    assert |l| == |r|;
    forall i | 0 <= i < |l|
      ensures l[i] == r[i]
    {
      if i < |a| {
        assert (a + b)[i] == a[i];
      } else {
        assert (a + b)[i] == b[i - |a|];
      }
    }
  }

  /**
   * The brand is found anywhere in the name and in any capitalisation:
   * whatever surrounds a word that lower-cases to "xbox", the device is an
   * Xbox controller.
   */
  lemma XboxNamedAnywhere(before: string, word: string, after: string)
    requires ToLower(word) == "xbox"
    ensures Classify(before + word + after) == Xbox
  {
    ToLowerAppend(before + word, after);
    ToLowerAppend(before, word);
    var lower := ToLower(before + word + after);
    assert lower == ToLower(before) + "xbox" + ToLower(after);
    assert lower[|before|..|before| + 4] == "xbox";
    assert OccursAt(lower, "xbox", |before|);
  }
}
