/**
 * The opponent's route: nine key points, a per-difficulty table of segment
 * durations turned into key times by running sums, and the small amount of
 * animation-mixer state the game switches.
 */
module Routes {
  import opened Basics

  const Normal: string := "normal"
  const Hard: string := "hard"

  /** The key points of the route; the last one closes the loop. */
  const KeyPoints: seq<Point3> := [
    Point3(2.0, 0.4, 5.0),
    Point3(2.0, 0.4, -51.0),
    Point3(-42.0, 0.4, -52.0),
    Point3(-42.0, 0.4, -2.0),
    Point3(-72.0, 0.4, 8.0),
    Point3(-67.0, 0.4, 32.0),
    Point3(-40.0, 0.4, 82.0),
    Point3(0.0, 0.4, 92.0),
    Point3(2.0, 0.4, 5.0)
  ]

  const NormalDurations: seq<real> := [0.0, 4.0, 3.0, 3.0, 2.0, 2.0, 2.0, 2.0, 4.0]
  const HardDurations: seq<real> := [0.0, 3.5, 2.5, 2.5, 1.5, 1.5, 1.5, 1.5, 3.5]

  /** The clip length in seconds: 22 for normal, 18 for hard, 0 otherwise. */
  function MaxDuration(difficulty: string): (d: nat)
    ensures difficulty == Normal ==> d == 22
    ensures difficulty == Hard ==> d == 18
    ensures difficulty != Normal && difficulty != Hard ==> d == 0
  {
    if difficulty == Normal then 22 else if difficulty == Hard then 18 else 0
  }

  /** The segment durations `playAnimation` uses (none for another difficulty). */
  function Durations(difficulty: string): (ds: seq<real>)
    ensures difficulty == Normal ==> ds == NormalDurations
    ensures difficulty == Hard ==> ds == HardDurations
    ensures difficulty != Normal && difficulty != Hard ==> ds == []
  {
    if difficulty == Normal then NormalDurations
    else if difficulty == Hard then HardDurations
    else []
  }

  /** The sum of all elements. */
  function Sum(s: seq<real>): real
  {
    if s == [] then 0.0 else Sum(s[..|s| - 1]) + s[|s| - 1]
  }

  /** The running sums: element i is the sum of the first i + 1 durations. */
  function PrefixSums(s: seq<real>): (r: seq<real>)
    ensures |r| == |s|
    ensures forall i :: 0 <= i < |s| ==> r[i] == Sum(s[..i + 1])
  {
    if s == [] then []
    else
      var init := s[..|s| - 1];
      assert s[..|s|] == s;
      forall k | 0 <= k <= |init|
        ensures init[..k] == s[..k]
      {
      }
      PrefixSums(init) + [Sum(s)]
  }

  /** The key times of a difficulty. */
  function KeyTimes(difficulty: string): seq<real>
  {
    PrefixSums(Durations(difficulty))
  }

  /** `generateTimes`: a running sum pushed once per duration. */
  method GenerateTimes(durations: seq<real>) returns (times: seq<real>)
    ensures times == PrefixSums(durations)
  {
    times := [];
    var sum := 0.0;
    var i := 0;
    while i < |durations|
      invariant 0 <= i <= |durations|
      invariant sum == Sum(durations[..i])
      invariant times == PrefixSums(durations[..i])
    {
      assert durations[..i + 1][..i] == durations[..i];
      sum := sum + durations[i];
      times := times + [sum];
      i := i + 1;
    }
    assert durations[..i] == durations;
  }

  /**
   * When every duration after the first is positive, the running sums
   * strictly increase.
   */
  lemma {:induction false} PrefixSumsIncrease(s: seq<real>)
    requires forall i :: 1 <= i < |s| ==> s[i] > 0.0
    ensures forall i, j :: 0 <= i < j < |s| ==> PrefixSums(s)[i] < PrefixSums(s)[j]
    decreases |s|
  {
    if |s| > 1 {
      var init := s[..|s| - 1];
      PrefixSumsIncrease(init);
      var r := PrefixSums(s);
      assert r[..|init|] == PrefixSums(init);
      assert r[|s| - 1] == Sum(s);
      assert s[..|s|] == s;
      assert Sum(s) == Sum(init) + s[|s| - 1];
      assert init[..|init|] == init;
      forall i | 0 <= i < |s| - 1
        ensures r[i] < r[|s| - 1]
      {
        SumsGrow(s, i + 1, |s|);
      }
    }
  }

  /** A longer prefix of a sequence with positive tail sums to more. */
  lemma {:induction false} SumsGrow(s: seq<real>, i: nat, j: nat)
    requires 1 <= i < j <= |s|
    requires forall k :: 1 <= k < |s| ==> s[k] > 0.0
    ensures Sum(s[..i]) < Sum(s[..j])
    decreases j - i
  {
    assert s[..j][..j - 1] == s[..j - 1];
    assert Sum(s[..j]) == Sum(s[..j - 1]) + s[j - 1];
    if i < j - 1 {
      SumsGrow(s, i, j - 1);
    }
  }

  /**
   * Both difficulty tables give one key time per key point, starting at 0,
   * strictly increasing, and ending exactly at the clip length; the route is
   * a closed loop.
   */
  lemma KeyTimesFitTheClip(difficulty: string)
    requires difficulty == Normal || difficulty == Hard
    ensures |KeyTimes(difficulty)| == |KeyPoints| == 9
    ensures KeyTimes(difficulty)[0] == 0.0
    ensures KeyTimes(difficulty)[8] == MaxDuration(difficulty) as real
    ensures forall i, j :: 0 <= i < j < 9 ==> KeyTimes(difficulty)[i] < KeyTimes(difficulty)[j]
    ensures KeyPoints[0] == KeyPoints[8]
  {
    var ds := Durations(difficulty);
    PrefixSumsIncrease(ds);
    assert ds[..1] == [ds[0]];
    assert Sum([ds[0]]) == Sum([]) + ds[0];
    assert ds[..9] == ds;
    if difficulty == Normal {
      assert Sum(ds) == 22.0 by { SumNormal(); }
    } else {
      assert Sum(ds) == 18.0 by { SumHard(); }
    }
  }

  /** Summing one more element. */
  lemma SumSnoc(s: seq<real>, k: nat)
    requires k < |s|
    ensures Sum(s[..k + 1]) == Sum(s[..k]) + s[k]
  {
    assert s[..k + 1][..k] == s[..k];
  }

  lemma SumNormal()
    ensures Sum(NormalDurations) == 22.0
  {
    var s := NormalDurations;
    SumSnoc(s, 0); SumSnoc(s, 1); SumSnoc(s, 2); SumSnoc(s, 3); SumSnoc(s, 4);
    SumSnoc(s, 5); SumSnoc(s, 6); SumSnoc(s, 7); SumSnoc(s, 8);
    assert s[..0] == [] && s[..9] == s;
  }

  lemma SumHard()
    ensures Sum(HardDurations) == 18.0
  {
    var s := HardDurations;
    SumSnoc(s, 0); SumSnoc(s, 1); SumSnoc(s, 2); SumSnoc(s, 3); SumSnoc(s, 4);
    SumSnoc(s, 5); SumSnoc(s, 6); SumSnoc(s, 7); SumSnoc(s, 8);
    assert s[..0] == [] && s[..9] == s;
  }

  /**
   * `MyRoute`. The three.js mixer is represented by whether it exists, its
   * time scale, and the key times its clips were built with.
   */
  class Route {
    const difficulty: string
    const animationMaxDuration: nat
    var mixerPause: bool
    var enableAnimationPosition: bool
    var hasMixer: bool
    var timeScale: real
    var times: seq<real>

    constructor(difficulty: string)
      ensures this.difficulty == difficulty
      ensures animationMaxDuration == MaxDuration(difficulty)
      ensures !mixerPause && enableAnimationPosition && !hasMixer
    {
      this.difficulty := difficulty;
      var d := 0;
      if difficulty == Normal {
        d := 22;
      } else if difficulty == Hard {
        d := 18;
      }
      animationMaxDuration := d;
      mixerPause := false;
      enableAnimationPosition := true;
      hasMixer := false;
      timeScale := 1.0;
      times := [];
    }

    /**
     * `playAnimation`: key times from the difficulty's table and a new mixer,
     * which starts at time scale 1.
     */
    method PlayAnimation()
      modifies this
      ensures hasMixer && timeScale == 1.0
      ensures times == KeyTimes(difficulty)
      ensures mixerPause == old(mixerPause)
      ensures enableAnimationPosition == old(enableAnimationPosition)
    {
      var t: seq<real> := [];
      if difficulty == Normal {
        t := GenerateTimes(NormalDurations);
      } else if difficulty == Hard {
        t := GenerateTimes(HardDurations);
      }
      times := t;
      hasMixer := true;
      timeScale := 1.0;
    }

    /** `checkAnimationStateIsPause`: the mixer is stopped exactly when paused. */
    method CheckAnimationStateIsPause()
      requires hasMixer
      modifies this
      ensures timeScale == 0.0 <==> mixerPause
      ensures timeScale == (if mixerPause then 0.0 else 1.0)
      ensures hasMixer && times == old(times) && mixerPause == old(mixerPause)
      ensures enableAnimationPosition == old(enableAnimationPosition)
    {
      if mixerPause {
        timeScale := 0.0;
      } else {
        timeScale := 1.0;
      }
    }

    /** `update`: nothing at all until `playAnimation` has built a mixer. */
    method Update()
      modifies this
      ensures !old(hasMixer) ==> timeScale == old(timeScale)
      ensures old(hasMixer) ==> (timeScale == 0.0 <==> mixerPause)
      ensures hasMixer == old(hasMixer) && times == old(times) && mixerPause == old(mixerPause)
      ensures enableAnimationPosition == old(enableAnimationPosition)
    {
      if hasMixer {
        CheckAnimationStateIsPause();
      }
    }
  }
}
