/**
 * The exercise-screen header: the progress value, the row of screen dots,
 * the screen title and the graphemes shown beside the phoneme.
 */
module PhonemeHeader {
  import opened Types
  import opened Text

  /** `(currentScreen - 1) / totalScreens * 100`; None when there are no screens. */
  function ProgressValue(currentScreen: int, totalScreens: int): (p: Option<real>)
    ensures p.None? <==> totalScreens == 0
    ensures totalScreens > 0 ==> (p == Some(0.0) <==> currentScreen == 1)
    ensures totalScreens > 0 && 1 <= currentScreen <= totalScreens ==> p.Some? && 0.0 <= p.value < 100.0
  {
    if totalScreens == 0 then None else Some((currentScreen - 1) as real / totalScreens as real * 100.0)
  }

  /** A later screen never shows less progress. */
  lemma ProgressMonotone(a: int, b: int, totalScreens: int)
    requires a <= b && totalScreens > 0
    ensures ProgressValue(a, totalScreens).value <= ProgressValue(b, totalScreens).value
  {
    var t := totalScreens as real;
    assert (a - 1) as real / t <= (b - 1) as real / t by {
      assert (a - 1) as real <= (b - 1) as real;
      DivMonotone((a - 1) as real, (b - 1) as real, t);
    }
  }

  lemma DivMonotone(x: real, y: real, t: real)
    requires x <= y && t > 0.0
    ensures x / t <= y / t
  {
    assert y / t - x / t == (y - x) / t;
  }

  datatype Dot = Green | Blue | Gray

  /** Dot number `n`: green for screens done, blue for the current one, gray for those to come. */
  function DotColour(n: int, currentScreen: int): (c: Dot)
    ensures c == Green <==> n < currentScreen
    ensures c == Blue <==> n == currentScreen
    ensures c == Gray <==> n > currentScreen
  {
    if n < currentScreen then Green else if n == currentScreen then Blue else Gray
  }

  /** The row of `totalScreens` dots, dot i numbered i + 1. */
  function Dots(currentScreen: int, totalScreens: nat): (d: seq<Dot>)
    ensures |d| == totalScreens
    ensures forall i :: 0 <= i < totalScreens ==> d[i] == DotColour(i + 1, currentScreen)
  {
    seq(totalScreens, i => DotColour(i + 1, currentScreen))
  }

  function Count(d: seq<Dot>, c: Dot): nat {
    if d == [] then 0 else Count(d[..|d| - 1], c) + (if d[|d| - 1] == c then 1 else 0)
  }

  lemma {:induction false} CountsPrefix(currentScreen: int, n: nat)
    requires 1 <= currentScreen
    ensures Count(Dots(currentScreen, n), Blue) == if currentScreen <= n then 1 else 0
    ensures Count(Dots(currentScreen, n), Green) == if currentScreen - 1 <= n then currentScreen - 1 else n
  {
    if n > 0 {
      CountsPrefix(currentScreen, n - 1);
      assert Dots(currentScreen, n)[..n - 1] == Dots(currentScreen, n - 1);
    }
  }

  /** On a screen of the exercise exactly one dot is blue, and the screens before it are green. */
  lemma ExactlyOneBlue(currentScreen: int, totalScreens: nat)
    requires 1 <= currentScreen <= totalScreens
    ensures Count(Dots(currentScreen, totalScreens), Blue) == 1
    ensures Count(Dots(currentScreen, totalScreens), Green) == currentScreen - 1
    ensures Count(Dots(currentScreen, totalScreens), Gray) == totalScreens - currentScreen
  {
    CountsPrefix(currentScreen, totalScreens);
    CountsAddUp(Dots(currentScreen, totalScreens));
  }

  lemma {:induction false} CountsAddUp(d: seq<Dot>)
    ensures Count(d, Green) + Count(d, Blue) + Count(d, Gray) == |d|
  {
    if d != [] {
      CountsAddUp(d[..|d| - 1]);
    }
  }

  const ScreenTitles: seq<string> := [
    "",
    "J'entends le son",
    "Je trouve sa place",
    "Je reconnais la lettre",
    "Je combine",
    "Je lis des mots",
    "J'écris des mots",
    "Je lis des phrases"]

  /** `screenTitles[currentScreen]`: undefined (None) outside the table. */
  function Title(currentScreen: int): (t: Option<string>)
    ensures t.Some? <==> 0 <= currentScreen < |ScreenTitles|
    ensures t.Some? ==> t.value == ScreenTitles[currentScreen]
  {
    if 0 <= currentScreen < |ScreenTitles| then Some(ScreenTitles[currentScreen]) else None
  }

  /** Screens 1 to 7 each have a non-empty title; index 0 is the unused empty one. */
  lemma TitlesDefined(n: int)
    requires 1 <= n <= 7
    ensures Title(n).Some? && Title(n).value != ""
    ensures Title(0) == Some("") && Title(8).None?
  {
  }

  /** `graphemes.slice(0, 4)`. */
  function Shown(graphemes: seq<string>): (s: seq<string>)
    ensures |s| == if |graphemes| < 4 then |graphemes| else 4
    ensures s == graphemes[..|s|]
  {
    if |graphemes| <= 4 then graphemes else graphemes[..4]
  }

  /** The `+k` marker after the shown graphemes, present only when more than four exist. */
  function More(graphemes: seq<string>): (m: Option<string>)
    ensures m.Some? <==> |graphemes| > 4
    ensures m.Some? ==> m.value == "+" + NatToString(|graphemes| - 4)
  {
    if |graphemes| > 4 then Some("+" + NatToString(|graphemes| - 4)) else None
  }

  /** The shown graphemes and the number in the marker account for every grapheme. */
  lemma ShownAndMoreCoverAll(graphemes: seq<string>)
    ensures More(graphemes).None? ==> Shown(graphemes) == graphemes
    ensures More(graphemes).Some? ==> |Shown(graphemes)| + (|graphemes| - 4) == |graphemes|
    ensures More(graphemes).Some? ==> ParseInt(More(graphemes).value[1..]) == Some(|graphemes| - |Shown(graphemes)|)
  {
    if |graphemes| > 4 {
      ParseIntNatToString(|graphemes| - 4);
      assert More(graphemes).value[1..] == NatToString(|graphemes| - 4);
    }
  }
}
