/** The scoring accumulator and final report of `ShiftTrainer._train_loop`.
    The random picks, the shifts `get_shift` delivers and the elapsed time
    are inputs; cancellation is "no press is left to deliver". */
module Session {
  import opened Keys
  import opened Trials

  /** The pair `_train_loop` returns: mean reaction time and the percentage of
      trials answered with the expected shift. */
  datatype Report = Report(reactionTime: real, validPercentage: real)

  predicate ValidPicks(picks: seq<Pick>)
  {
    forall i :: 0 <= i < |picks| ==> ValidPick(picks[i])
  }

  /** Whether a completed trial was answered with the shift it asked for:
      `pressed_shift == check_shift`. */
  predicate Correct(p: Pick, pressed: Key)
    requires ValidPick(p)
  {
    pressed == GetRandomKey(p).1
  }

  /** The letters printed for the given draws, one per draw. */
  function Prompts(picks: seq<Pick>): seq<char>
    requires ValidPicks(picks)
  {
    if picks == [] then []
    else
      var n := |picks| - 1;
      Prompts(picks[..n]) + [GetRandomKey(picks[n]).0]
  }

  /** The OK (true) / False (false) lines printed for the completed trials,
      one per press. */
  function Verdicts(picks: seq<Pick>, presses: seq<Key>): seq<bool>
    requires |presses| <= |picks| && ValidPicks(picks)
  {
    if presses == [] then []
    else
      var n := |presses| - 1;
      Verdicts(picks, presses[..n]) + [Correct(picks[n], presses[n])]
  }

  /** `valid`: the number of completed trials (one per press) whose press
      matched the expected shift. */
  function Matches(picks: seq<Pick>, presses: seq<Key>): nat
    requires |presses| <= |picks| && ValidPicks(picks)
  {
    if presses == [] then 0
    else
      var n := |presses| - 1;
      Matches(picks, presses[..n]) + (if Correct(picks[n], presses[n]) then 1 else 0)
  }

  /** Prompt i is the letter of draw i. */
  lemma {:induction false} PromptsAt(picks: seq<Pick>, i: nat)
    requires ValidPicks(picks) && i < |picks|
    ensures |Prompts(picks)| == |picks| && Prompts(picks)[i] == GetRandomKey(picks[i]).0
  {
    var n := |picks| - 1;
    if i < n {
      PromptsAt(picks[..n], i);
    } else if n > 0 {
      PromptsAt(picks[..n], 0);
    }
  }

  /** Verdict i says whether press i matched the shift of draw i. */
  lemma {:induction false} VerdictsAt(picks: seq<Pick>, presses: seq<Key>, i: nat)
    requires |presses| <= |picks| && ValidPicks(picks) && i < |presses|
    ensures |Verdicts(picks, presses)| == |presses|
    ensures Verdicts(picks, presses)[i] == Correct(picks[i], presses[i])
  {
    var n := |presses| - 1;
    if i < n {
      VerdictsAt(picks, presses[..n], i);
    } else if n > 0 {
      VerdictsAt(picks, presses[..n], 0);
    }
  }

  /** `valid <= count`: Matches never exceeds the number of completed trials. */
  lemma {:induction false} MatchesBounded(picks: seq<Pick>, presses: seq<Key>)
    requires |presses| <= |picks| && ValidPicks(picks)
    ensures Matches(picks, presses) <= |presses|
  {
    if presses != [] {
      MatchesBounded(picks, presses[..|presses| - 1]);
    }
  }

  /** The indices of the completed trials that matched. */
  ghost function MatchingTrials(picks: seq<Pick>, presses: seq<Key>): set<nat>
    requires |presses| <= |picks| && ValidPicks(picks)
  {
    set i: nat | i < |presses| && Correct(picks[i], presses[i])
  }

  /** Adding one press adds its index to the matching trials exactly when it matched. */
  lemma MatchingTrialsStep(picks: seq<Pick>, presses: seq<Key>)
    requires 0 < |presses| <= |picks| && ValidPicks(picks)
    ensures var n := |presses| - 1;
            MatchingTrials(picks, presses) ==
              MatchingTrials(picks, presses[..n]) + (if Correct(picks[n], presses[n]) then {n} else {})
  {
    var n := |presses| - 1;
    var init := presses[..n];
    forall i: nat | i < n
      ensures init[i] == presses[i]
    {
    }
  }

  /** `valid` is the number of completed trials whose press matched. */
  lemma {:induction false} MatchesIsCount(picks: seq<Pick>, presses: seq<Key>)
    requires |presses| <= |picks| && ValidPicks(picks)
    ensures Matches(picks, presses) == |MatchingTrials(picks, presses)|
  {
    if presses != [] {
      var n := |presses| - 1;
      MatchesIsCount(picks, presses[..n]);
      MatchingTrialsStep(picks, presses);
      assert n !in MatchingTrials(picks, presses[..n]);
    }
  }

  /** Full marks exactly when every completed trial was answered correctly. */
  lemma {:induction false} MatchesAllIff(picks: seq<Pick>, presses: seq<Key>)
    requires |presses| <= |picks| && ValidPicks(picks)
    ensures Matches(picks, presses) == |presses| <==>
            forall i :: 0 <= i < |presses| ==> Correct(picks[i], presses[i])
  {
    if presses != [] {
      var n := |presses| - 1;
      var init := presses[..n];
      MatchesAllIff(picks, init);
      MatchesBounded(picks, init);
      assert forall i :: 0 <= i < n ==> init[i] == presses[i];
    }
  }

  /** The report computed on cancellation from the counters and the elapsed
      time: `None` when no trial completed (no division happens then),
      otherwise `(elapsed / count, valid / count * 100)`. */
  function FinalReport(count: nat, valid: nat, elapsed: real): (r: Option<Report>)
    ensures r.None? <==> count == 0
    ensures r.Some? ==> r.value.reactionTime * (count as real) == elapsed
    ensures r.Some? ==> r.value.validPercentage * (count as real) == valid as real * 100.0
    ensures r.Some? && valid <= count ==> 0.0 <= r.value.validPercentage <= 100.0
  {
    if count != 0 then
      Some(Report(elapsed / count as real, valid as real / count as real * 100.0))
    else
      None
  }

  /** `_train_loop`, run until cancelled. Iteration i draws `picks[i]`, shows
      its letter and awaits a shift; `presses[i]` is the shift delivered. The
      loop is cancelled while awaiting the press after the last one, so one
      more letter is drawn and shown than there are completed trials.
      `prompts` are the letters printed, `verdicts` the OK / False lines,
      `report` the value returned on cancellation. */
  method TrainLoop(picks: seq<Pick>, presses: seq<Key>, elapsed: real)
    returns (prompts: seq<char>, verdicts: seq<bool>, report: Option<Report>)
    requires ValidPicks(picks) && |picks| == |presses| + 1
    ensures prompts == Prompts(picks)
    ensures verdicts == Verdicts(picks, presses)
    ensures report == FinalReport(|presses|, Matches(picks, presses), elapsed)
    ensures report.None? <==> presses == []
    ensures report.Some? ==> 0.0 <= report.value.validPercentage <= 100.0
  {
    var valid: nat := 0;
    var count: nat := 0;
    prompts, verdicts := [], [];
    while true
      invariant count <= |presses|
      invariant prompts == Prompts(picks[..count])
      invariant verdicts == Verdicts(picks, presses[..count])
      invariant valid == Matches(picks, presses[..count]) && valid <= count
      decreases |presses| - count
    {
      assert picks[..count + 1][..count] == picks[..count];
      var (checkKey, checkShift) := GetRandomKey(picks[count]);
      prompts := prompts + [checkKey];
      if count == |presses| {
        // cancelled while awaiting `get_shift`
        break;
      }
      var pressedShift := presses[count];
      assert presses[..count + 1][..count] == presses[..count];
      count := count + 1;
      if pressedShift == checkShift {
        verdicts := verdicts + [true];
        valid := valid + 1;
      } else {
        verdicts := verdicts + [false];
      }
    }
    assert picks[..count + 1] == picks && presses[..count] == presses;
    if count != 0 {
      report := Some(Report(elapsed / count as real, valid as real / count as real * 100.0));
    } else {
      report := None;
    }
  }

  /** Three trials: (left expected, left pressed), (right expected, left
      pressed), (left expected, left pressed) give three trials, two of them
      valid, and a valid percentage of 200/3. */
  lemma ThreeTrialScenario(elapsed: real)
    ensures var picks := [Pick(0, 0), Pick(1, 0), Pick(0, 1), Pick(0, 2)];
            var presses := [Shift, Shift, Shift];
            ValidPicks(picks) &&
            Matches(picks, presses) == 2 &&
            FinalReport(|presses|, Matches(picks, presses), elapsed)
              == Some(Report(elapsed / 3.0, 200.0 / 3.0))
  {
    var picks := [Pick(0, 0), Pick(1, 0), Pick(0, 1), Pick(0, 2)];
    var presses := [Shift, Shift, Shift];
    assert presses[..2] == [Shift, Shift] && presses[..2][..1] == [Shift] && [Shift][..0] == [];
    assert Matches(picks, [Shift]) == 1;
    assert Matches(picks, [Shift, Shift]) == 1;
    assert (2 as real) / (3 as real) * 100.0 == 200.0 / 3.0;
  }

  /** The loop run on the three trials of ThreeTrialScenario: four letters
      are shown (the fourth while the cancelled await is pending), the
      verdicts are OK, False, OK and the report is (elapsed/3, 200/3). */
  method ThreeTrialRun(elapsed: real) returns (prompts: seq<char>, verdicts: seq<bool>, report: Option<Report>)
    ensures prompts == ['^', '~', '&', '*']
    ensures verdicts == [true, false, true]
    ensures report == Some(Report(elapsed / 3.0, 200.0 / 3.0))
  {
    var picks := [Pick(0, 0), Pick(1, 0), Pick(0, 1), Pick(0, 2)];
    var presses := [Shift, Shift, Shift];
    ThreeTrialScenario(elapsed);
    prompts, verdicts, report := TrainLoop(picks, presses, elapsed);
    PromptsAt(picks, 0); PromptsAt(picks, 1); PromptsAt(picks, 2); PromptsAt(picks, 3);
    VerdictsAt(picks, presses, 0); VerdictsAt(picks, presses, 1); VerdictsAt(picks, presses, 2);
  }

  /** The loop cancelled before any press: one letter shown, no verdict and
      no report. */
  method NoTrialRun(p: Pick, elapsed: real) returns (prompts: seq<char>, verdicts: seq<bool>, report: Option<Report>)
    requires ValidPick(p)
    ensures prompts == [GetRandomKey(p).0]
    ensures verdicts == [] && report == None
  {
    prompts, verdicts, report := TrainLoop([p], [], elapsed);
    PromptsAt([p], 0);
    assert verdicts == Verdicts([p], []) == [];
    assert report == None;
    assert prompts == [GetRandomKey(p).0];
  }
}
