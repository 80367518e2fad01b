/**
 * The exercises page (src/pages/Exercises.tsx:5-91, 133-150): the exercise catalogue, its
 * category filter, the timer text and the player's state transitions.
 */
module ExercisesPage {
  import opened Wrappers
  import opened JsMath

  datatype Exercise = Exercise(
    id: string,
    name: string,
    category: string,
    duration: int,
    youtubeId: string,
    desc: string)

  const Exercises: seq<Exercise> := [
    Exercise("e1", "5-Min Wake Up Stretch", "lazy", 300, "ml6cT4AZdqI", "Gentle stretches to start your day"),
    Exercise("e2", "10-Min Dance Workout", "after-school", 600, "ml6cT4AZdqI", "Fun dance moves, no equipment"),
    Exercise("e3", "7-Min HIIT for Teens", "after-school", 420, "dJlFmxiL11s", "Quick high intensity burst"),
    Exercise("e4", "Chair Yoga Break", "low-energy", 300, "v7AYKMP6rOE", "Do it at your desk!"),
    Exercise("e5", "Breathing Exercises", "stress", 300, "SEfs5TJZ6Nk", "Calm your mind in 5 mins"),
    Exercise("e6", "Easy Bedroom Workout", "lazy", 480, "IODxDxX7oi4", "Workout without leaving your room"),
    Exercise("e7", "Walk & Talk Routine", "low-energy", 600, "njeZ29umqVE", "Light walking exercise"),
    Exercise("e8", "Guided Meditation", "stress", 600, "inpok4MKVLM", "Peaceful meditation for teens")
  ]

  /** `exercises.filter(e => e.category === category)`. */
  function Filter(s: seq<Exercise>, category: string): (r: seq<Exercise>)
    ensures |r| <= |s|
    ensures forall i :: 0 <= i < |r| ==> r[i].category == category
    decreases |s|
  {
    if s == [] then []
    else if s[0].category == category then [s[0]] + Filter(s[1..], category)
    else Filter(s[1..], category)
  }

  /** Filtering a concatenation filters each part: the kept exercises stay in catalogue order. */
  lemma {:induction false} FilterConcat(a: seq<Exercise>, b: seq<Exercise>, category: string)
    ensures Filter(a + b, category) == Filter(a, category) + Filter(b, category)
    decreases |a|
  {
    if a == [] {
      assert a + b == b;
    } else {
      assert (a + b)[1..] == a[1..] + b;
      FilterConcat(a[1..], b, category);
    }
  }

  /** An exercise is kept exactly when it is in the list and has the category. */
  lemma {:induction false} FilterMembership(s: seq<Exercise>, category: string, e: Exercise)
    ensures e in Filter(s, category) <==> e in s && e.category == category
    decreases |s|
  {
    if s != [] {
      FilterMembership(s[1..], category, e);
      assert e in s <==> e == s[0] || e in s[1..];
    }
  }

  /** `findIndex(e => e.id === activeExercise)`: the first match, or -1 (always for `null`). */
  function FindIndex(s: seq<Exercise>, active: Option<string>): (r: int)
    ensures -1 <= r < |s|
    ensures r >= 0 ==> active == Some(s[r].id) && forall j :: 0 <= j < r ==> active != Some(s[j].id)
    ensures r == -1 <==> forall j :: 0 <= j < |s| ==> active != Some(s[j].id)
    decreases |s|
  {
    if s == [] then -1
    else if active == Some(s[0].id) then 0
    else
      var k := FindIndex(s[1..], active);
      assert forall j :: 0 < j < |s| ==> s[j] == s[1..][j - 1];
      if k == -1 then -1 else k + 1
  }

  /** `formatTime`: whole minutes, a colon, and the seconds padded to two characters. */
  function FormatTime(s: int): string {
    var m := s / 60;
    var sec := Rem(s, 60);
    NumberToString(m) + ":" + PadStart2(NumberToString(sec))
  }

  /** Padding a single digit with a zero keeps its value. */
  lemma PaddedValue(n: nat)
    requires n < 60
    ensures AllDigits(PadStart2(DecimalString(n)))
    ensures |PadStart2(DecimalString(n))| == 2
    ensures DecimalValue(PadStart2(DecimalString(n))) == n
  {
    DecimalRoundTrip(n);
    var d := DecimalString(n);
    var p := PadStart2(d);
    if n < 10 {
      assert p == "0" + d;
      assert p[..1] == "0";
    }
  }

  /** Text around a colon with a two-character tail splits back into its two parts. */
  lemma SplitAtColon(a: string, b: string)
    requires |b| == 2
    ensures var t := a + ":" + b;
      && |t| == |a| + 3 && t[|t| - 3] == ':' && t[..|t| - 3] == a && t[|t| - 2..] == b
  {
    var t := a + ":" + b;
    assert t[..|t| - 3] == a;
    assert t[|t| - 2..] == b;
  }

  /** Minutes digits and two second digits around a colon read back as those numbers. */
  lemma TimeTextReadsBack(mins: string, secs: string, m: nat, sec: nat)
    requires AllDigits(mins) && AllDigits(secs) && |secs| == 2 && |mins| >= 1
    requires DecimalValue(mins) == m && DecimalValue(secs) == sec
    ensures var t := mins + ":" + secs;
      && |t| >= 4 && t[|t| - 3] == ':'
      && AllDigits(t[..|t| - 3]) && AllDigits(t[|t| - 2..])
      && DecimalValue(t[..|t| - 3]) == m && DecimalValue(t[|t| - 2..]) == sec
  {
    SplitAtColon(mins, secs);
  }

  /** The two parts of the timer text of a non-negative time, and the numbers they denote. */
  lemma FormatTimeParts(s: int) returns (mins: string, secs: string)
    requires s >= 0
    ensures FormatTime(s) == mins + ":" + secs
    ensures AllDigits(mins) && |mins| >= 1 && DecimalValue(mins) == s / 60
    ensures AllDigits(secs) && |secs| == 2 && DecimalValue(secs) == s % 60
  {
    assert Rem(s, 60) == s % 60;
    mins := DecimalString(s / 60);
    secs := PadStart2(DecimalString(s % 60));
    DecimalRoundTrip(s / 60);
    PaddedValue(s % 60);
  }

  /**
   * For a non-negative time the text reads back: digits, a colon three from the end, two
   * second digits below 60, and minutes times 60 plus seconds is the time again.
   */
  lemma FormatTimeReadsBack(s: int)
    requires s >= 0
    ensures var t := FormatTime(s);
      && |t| >= 4 && t[|t| - 3] == ':'
      && AllDigits(t[..|t| - 3]) && AllDigits(t[|t| - 2..])
      && DecimalValue(t[|t| - 2..]) < 60
      && 60 * DecimalValue(t[..|t| - 3]) + DecimalValue(t[|t| - 2..]) == s
  {
    var mins, secs := FormatTimeParts(s);
    TimeTextReadsBack(mins, secs, s / 60, s % 60);
  }

  /** The player: chosen category, the active exercise, the countdown and the video toggle. */
  class ExercisePlayer {
    /** The page's exercise list. */
    const catalogue: seq<Exercise>
    var selectedCategory: string
    var activeExercise: Option<string>
    var timeLeft: int
    var isRunning: bool
    var showVideo: bool

    constructor ()
      ensures catalogue == Exercises
      ensures selectedCategory == "lazy" && activeExercise == None
      ensures timeLeft == 0 && !isRunning && !showVideo
    {
      catalogue := Exercises;
      selectedCategory := "lazy";
      activeExercise := None;
      timeLeft := 0;
      isRunning := false;
      showVideo := false;
    }

    /** The exercises of the selected category. */
    function Filtered(): (r: seq<Exercise>)
      reads this`selectedCategory
      ensures |r| <= |catalogue|
      ensures forall i :: 0 <= i < |r| ==> r[i].category == selectedCategory
    {
      Filter(catalogue, selectedCategory)
    }

    /** `startExercise`: the exercise becomes active with its full duration, running, video hidden. */
    method StartExercise(ex: Exercise)
      modifies this`activeExercise, this`timeLeft, this`isRunning, this`showVideo
      ensures activeExercise == Some(ex.id) && timeLeft == ex.duration
      ensures isRunning && !showVideo
    {
      activeExercise := Some(ex.id);
      timeLeft := ex.duration;
      isRunning := true;
      showVideo := false;
    }

    /**
     * `nextExercise`: start the exercise after the active one in the filtered list, the first
     * one when the active exercise is not listed, and clear the player after the last one.
     */
    method NextExercise()
      modifies this`activeExercise, this`timeLeft, this`isRunning, this`showVideo
      ensures var f := Filtered(); var idx := FindIndex(f, old(activeExercise));
        if idx < |f| - 1 then
          activeExercise == Some(f[idx + 1].id) && timeLeft == f[idx + 1].duration && isRunning
        else
          activeExercise == None && timeLeft == old(timeLeft) && !isRunning
      ensures !showVideo
      ensures var f := Filtered();
        (forall j :: 0 <= j < |f| ==> old(activeExercise) != Some(f[j].id)) && |f| > 0 ==>
          activeExercise == Some(f[0].id) && isRunning
    {
      var f := Filtered();
      var idx := FindIndex(f, activeExercise);
      if idx < |f| - 1 {
        var ex := f[idx + 1];
        assert idx == -1 ==> ex == f[0];
        StartExercise(ex);
      } else {
        activeExercise := None;
        isRunning := false;
        showVideo := false;
      }
    }

    /** Choosing a category stops and clears the player. */
    method SelectCategory(category: string)
      modifies this`selectedCategory, this`activeExercise, this`isRunning, this`showVideo
      ensures selectedCategory == category && activeExercise == None
      ensures !isRunning && !showVideo
    {
      selectedCategory := category;
      activeExercise := None;
      isRunning := false;
      showVideo := false;
    }

    /** The play/pause button. */
    method ToggleRunning()
      modifies this`isRunning
      ensures isRunning == !old(isRunning)
    {
      isRunning := !isRunning;
    }

    /** The video button: pause, and show or hide the video. */
    method ToggleVideo()
      modifies this`isRunning, this`showVideo
      ensures !isRunning && showVideo == !old(showVideo)
    {
      isRunning := false;
      showVideo := !showVideo;
    }
  }
}
