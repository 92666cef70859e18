/** The display state of client/src/pages/MoodPhotoResultPage.jsx: what the page keeps
    from the navigation state, and the colour bucket of the mood box. */
module MoodPhotoResult {
  import opened Wrappers

  const UNKNOWN_MOOD := "Unknown"
  const NO_MOOD_DATA := "No mood data available."

  /** `location.state` as the capture page sends it. `mood` and `capturedImageUrl` are
      strings or absent (None); `confidence` is Some exactly when it is of type number. */
  datatype LocationState = LocationState(mood: Option<string>, confidence: Option<real>, capturedImageUrl: Option<string>)

  /** The page's three state fields; None is `null`. */
  datatype View = View(moodResult: string, confidence: Option<real>, displayImageUrl: Option<string>)

  const INITIAL_VIEW := View(UNKNOWN_MOOD, None, None)

  /** The `useEffect` on `location.state`: with navigation state, each field is
      replaced only by a truthy mood, a number, a truthy image URL; without it, the
      "no data" message and two nulls. */
  function ApplyState(v: View, state: Option<LocationState>): View {
    match state
    case None => View(NO_MOOD_DATA, None, None)
    case Some(st) =>
      View(if Truthy(st.mood) then st.mood.value else v.moodResult,
           if st.confidence.Some? then st.confidence else v.confidence,
           if Truthy(st.capturedImageUrl) then st.capturedImageUrl else v.displayImageUrl)
  }

  /** Each field is updated on its own: replaced when its part of the navigation state
      qualifies, and otherwise kept. */
  lemma FieldsUpdateIndependently(v: View, st: LocationState)
    ensures var w := ApplyState(v, Some(st));
      && (Truthy(st.mood) ==> w.moodResult == st.mood.value)
      && (!Truthy(st.mood) ==> w.moodResult == v.moodResult)
      && (st.confidence.Some? ==> w.confidence == st.confidence)
      && (st.confidence.None? ==> w.confidence == v.confidence)
      && (Truthy(st.capturedImageUrl) ==> w.displayImageUrl == st.capturedImageUrl)
      && (!Truthy(st.capturedImageUrl) ==> w.displayImageUrl == v.displayImageUrl)
  {
  }

  /** Without navigation state the page shows the "no data" message, no confidence and
      the image placeholder, in the default colour. */
  lemma NoStateShowsNoData(v: View)
    ensures var w := ApplyState(v, None);
      && w.moodResult == NO_MOOD_DATA && w.confidence.None? && w.displayImageUrl.None?
      && ShowsImagePlaceholder(w) && !ShowsConfidence(w)
      && MoodBoxStyle(w.moodResult) == DefaultBox
  {
    NoMoodDataIsDefault();
  }

  /** The placeholder is shown when the image URL is null or empty. */
  predicate ShowsImagePlaceholder(v: View) {
    v.displayImageUrl.None? || v.displayImageUrl.value == ""
  }

  /** The confidence line is shown when the confidence is not null. */
  predicate ShowsConfidence(v: View) {
    v.confidence.Some?
  }

  /** From the initial view, the image is shown exactly when the navigation state
      carries a truthy URL, and the confidence exactly when it carries a number. */
  lemma FirstRenderDisplay(st: Option<LocationState>)
    ensures var w := ApplyState(INITIAL_VIEW, st);
      && (ShowsImagePlaceholder(w) <==> st.None? || !Truthy(st.value.capturedImageUrl))
      && (ShowsConfidence(w) <==> st.Some? && st.value.confidence.Some?)
  {
  }

  // ---------------------------------------------------------------------------
  // Mood box colours

  /** The four named colour buckets and the purple default. */
  datatype BoxStyle = HappyBox | SadBox | AngryBox | NeutralBox | DefaultBox

  /** The gradient classes of each bucket. */
  function BoxClasses(style: BoxStyle): string {
    match style
    case HappyBox => "from-yellow-300 to-amber-500 text-amber-800"
    case SadBox => "from-blue-300 to-blue-500 text-blue-800"
    case AngryBox => "from-red-300 to-red-500 text-red-800"
    case NeutralBox => "from-gray-300 to-gray-500 text-gray-800"
    case DefaultBox => "from-purple-300 to-purple-500 text-purple-800"
  }

  /** Each bucket has its own class list. */
  lemma BoxClassesDistinct(a: BoxStyle, b: BoxStyle)
    requires a != b
    ensures BoxClasses(a) != BoxClasses(b)
  {
  }

  function LowerChar(c: char): char {
    if 'A' <= c <= 'Z' then (c as int + 32) as char else c
  }

  /** `toLowerCase` on the letters A to Z. */
  function ToLower(s: string): (r: string)
    ensures |r| == |s|
    ensures forall i :: 0 <= i < |s| ==> r[i] == LowerChar(s[i])
  {
    if s == [] then [] else [LowerChar(s[0])] + ToLower(s[1..])
  }

  /** `getMoodBoxStyle`. */
  function MoodBoxStyle(mood: string): BoxStyle {
    var m := ToLower(mood);
    if m == "happy" then HappyBox
    else if m == "sad" then SadBox
    else if m == "angry" then AngryBox
    else if m == "neutral" then NeutralBox
    else DefaultBox
  }

  lemma ToLowerIdempotent(s: string)
    ensures ToLower(ToLower(s)) == ToLower(s)
  {
  }

  /** The style ignores case: a mood and its lower-case form get the same bucket. */
  lemma MoodBoxStyleIgnoresCase(mood: string)
    ensures MoodBoxStyle(mood) == MoodBoxStyle(ToLower(mood))
  {
    ToLowerIdempotent(mood);
  }

  /** Each named bucket is chosen by exactly its mood name, in any case. */
  lemma MoodBoxStyleBuckets(mood: string)
    ensures MoodBoxStyle(mood) == HappyBox <==> ToLower(mood) == "happy"
    ensures MoodBoxStyle(mood) == SadBox <==> ToLower(mood) == "sad"
    ensures MoodBoxStyle(mood) == AngryBox <==> ToLower(mood) == "angry"
    ensures MoodBoxStyle(mood) == NeutralBox <==> ToLower(mood) == "neutral"
    ensures MoodBoxStyle(mood) == DefaultBox <==>
      ToLower(mood) !in ["happy", "sad", "angry", "neutral"]
  {
  }

  /** Upper-case and mixed-case mood names reach their buckets. */
  lemma MixedCaseExamples()
    ensures MoodBoxStyle("HAPPY") == HappyBox && MoodBoxStyle("Sad") == SadBox
    ensures MoodBoxStyle("aNgRy") == AngryBox && MoodBoxStyle("Neutral") == NeutralBox
  {
  }

  /** A mood whose length is not that of a named mood gets the default. */
  lemma DefaultByLength(mood: string)
    requires |mood| != 3 && |mood| != 5 && |mood| != 7
    ensures MoodBoxStyle(mood) == DefaultBox
  {
  }

  /** A mood whose first letter starts no named mood gets the default. */
  lemma DefaultByFirstLetter(mood: string)
    requires |mood| > 0 && LowerChar(mood[0]) !in "hsan"
    ensures MoodBoxStyle(mood) == DefaultBox
  {
  }

  /** The two placeholder texts fall into the purple default. */
  lemma NoMoodDataIsDefault()
    ensures MoodBoxStyle(UNKNOWN_MOOD) == DefaultBox
    ensures MoodBoxStyle(NO_MOOD_DATA) == DefaultBox
  {
    DefaultByFirstLetter(UNKNOWN_MOOD);
    DefaultByLength(NO_MOOD_DATA);
  }

  // ---------------------------------------------------------------------------
  // The component

  /** `MoodPhotoResultPage`'s three state fields and its effect. */
  class MoodPhotoResultPage {
    var moodResult: string
    var confidence: Option<real>
    var displayImageUrl: Option<string>

    function CurrentView(): View
      reads this
    {
      View(moodResult, confidence, displayImageUrl)
    }

    /** `useState("Unknown")`, `useState(null)`, `useState(null)`. */
    constructor ()
      ensures CurrentView() == INITIAL_VIEW
    {
      moodResult := UNKNOWN_MOOD;
      confidence := None;
      displayImageUrl := None;
    }

    /** The `useEffect` body, run with the current `location.state`. */
    method ApplyLocationState(state: Option<LocationState>)
      modifies this
      ensures CurrentView() == ApplyState(old(CurrentView()), state)
    {
      if state.Some? {
        var st := state.value;
        if Truthy(st.mood) {
          moodResult := st.mood.value;
        }
        if st.confidence.Some? {
          confidence := st.confidence;
        }
        if Truthy(st.capturedImageUrl) {
          displayImageUrl := st.capturedImageUrl;
        }
      } else {
        moodResult := NO_MOOD_DATA;
        confidence := None;
        displayImageUrl := None;
      }
    }
  }
}
