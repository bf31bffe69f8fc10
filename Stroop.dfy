/** The Stroop colour-word test: the trial generator, the per-trial runner
    (press, timeout, advance) and the end-of-test aggregation. Random
    choices and clock readings are parameters. */
module Stroop {
  import opened Wrappers
  import opened Builtins

  const TOTAL_QUESTIONS: nat := 42
  const TIME_LIMIT: int := 5

  /** The COLORS table: its keys (the colour-name words, which are also
      the button labels) in order, and the display colour of each. */
  const COLOR_WORDS: seq<string> := ["RED", "GREEN", "BLUE", "YELLOW"]
  const COLORS: map<string, string> :=
    map["RED" := "red", "GREEN" := "green", "BLUE" := "blue", "YELLOW" := "yellow"]
  /** list(COLORS.values()), in the table's order. */
  const COLOR_VALUES: seq<string> := ["red", "green", "blue", "yellow"]
  const NEUTRAL_WORDS: seq<string> := ["DOG", "CAR", "TREE", "HOUSE"]

  /** The key list and the value list line up with the table. */
  lemma ColorTable()
    ensures forall w :: w in COLORS <==> w in COLOR_WORDS
    ensures forall i :: 0 <= i < |COLOR_WORDS| ==> COLORS[COLOR_WORDS[i]] == COLOR_VALUES[i]
    ensures forall w :: w in NEUTRAL_WORDS ==> w !in COLORS
  {
  }

  datatype Condition = Congruent | Incongruent | Neutral

  /** A trial: the word shown, its font colour, and its condition. */
  datatype Trial = Trial(word: string, color: string, condition: Condition)

  /** The constraints each condition puts on a trial. */
  predicate WellFormed(t: Trial) {
    match t.condition
    case Congruent => t.word in COLORS && t.color == COLORS[t.word]
    case Incongruent => t.word in COLORS && t.color in COLOR_VALUES && t.color != COLORS[t.word]
    case Neutral => t.word in NEUTRAL_WORDS && t.color in COLOR_VALUES
  }

  /** [c for c in cs if c != x]. */
  function Others(cs: seq<string>, x: string): (r: seq<string>)
    ensures forall c :: c in r <==> c in cs && c != x
    ensures |r| <= |cs|
  {
    if cs == [] then []
    else (if cs[0] != x then [cs[0]] else []) + Others(cs[1..], x)
  }

  /** Removing one colour leaves the other three, in table order. */
  lemma OthersOfColor(i: nat)
    requires i < |COLOR_WORDS|
    ensures Others(COLOR_VALUES, COLORS[COLOR_WORDS[i]]) ==
              COLOR_VALUES[..i] + COLOR_VALUES[i + 1..]
  {
    assert COLOR_VALUES[1..][1..][1..][1..] == [];
  }

  /** The random choices behind one trial: the condition type, an index
      into the word list, and an index into the colour list (neutral:
      all four colours; incongruent: the other three; unused for
      congruent trials). */
  datatype Pick = Pick(kind: Condition, wordPick: nat, colorPick: nat)

  predicate ValidPick(p: Pick) {
    match p.kind
    case Neutral => p.wordPick < |NEUTRAL_WORDS| && p.colorPick < |COLOR_VALUES|
    case Congruent => p.wordPick < |COLOR_WORDS|
    case Incongruent => p.wordPick < |COLOR_WORDS| && p.colorPick < |COLOR_VALUES| - 1
  }

  /** generate_question. */
  function GenerateQuestion(p: Pick): (t: Trial)
    requires ValidPick(p)
    ensures t.condition == p.kind
    ensures WellFormed(t)
    ensures t.word !in COLORS <==> t.condition == Neutral
  {
    match p.kind
    case Neutral =>
      Trial(NEUTRAL_WORDS[p.wordPick], COLOR_VALUES[p.colorPick], Neutral)
    case Congruent =>
      var word := COLOR_WORDS[p.wordPick];
      Trial(word, COLORS[word], Congruent)
    case Incongruent =>
      var word := COLOR_WORDS[p.wordPick];
      OthersOfColor(p.wordPick);
      var others := Others(COLOR_VALUES, COLORS[word]);
      assert others[p.colorPick] in others;
      Trial(word, others[p.colorPick], Incongruent)
  }

  /** The position of a value in a list. */
  function IndexOf(xs: seq<string>, x: string): (i: nat)
    requires x in xs
    ensures i < |xs| && xs[i] == x
  {
    if xs[0] == x then 0 else 1 + IndexOf(xs[1..], x)
  }

  /** The generator reaches every well-formed trial: the condition
      constraints are exactly what it produces. */
  lemma GeneratorComplete(t: Trial)
    requires WellFormed(t)
    ensures exists p :: ValidPick(p) && GenerateQuestion(p) == t
  {
    ColorTable();
    match t.condition
    case Neutral =>
      var p := Pick(Neutral, IndexOf(NEUTRAL_WORDS, t.word), IndexOf(COLOR_VALUES, t.color));
      assert ValidPick(p) && GenerateQuestion(p) == t;
    case Congruent =>
      var p := Pick(Congruent, IndexOf(COLOR_WORDS, t.word), 0);
      assert ValidPick(p) && GenerateQuestion(p) == t;
    case Incongruent =>
      var p := IncongruentPick(t);
      assert ValidPick(p) && GenerateQuestion(p) == t;
  }

  lemma IncongruentPick(t: Trial) returns (p: Pick)
    requires WellFormed(t) && t.condition == Incongruent
    ensures ValidPick(p) && GenerateQuestion(p) == t
  {
    ColorTable();
    var w := IndexOf(COLOR_WORDS, t.word);
    OthersOfColor(w);
    var others := Others(COLOR_VALUES, COLORS[t.word]);
    p := Pick(Incongruent, w, IndexOf(others, t.color));
  }

  /** A press is correct exactly when the pressed label's colour, from the
      table, is the trial's font colour: color_name.lower() matches the
      table's value for every key. */
  lemma PressCorrectness(button: string, color: string)
    requires button in COLOR_WORDS
    ensures (Lower(button) == color) <==> (COLORS[button] == color)
  {
    assert Lower(button) == COLORS[button] by {
      if button == "RED" {
        LowerIs("RED", "red");
      } else if button == "GREEN" {
        LowerIs("GREEN", "green");
      } else if button == "BLUE" {
        LowerIs("BLUE", "blue");
      } else {
        LowerIs("YELLOW", "yellow");
      }
    }
  }

  lemma LowerIs(s: string, t: string)
    requires |s| == |t| && forall i :: 0 <= i < |s| ==> LowerChar(s[i]) == t[i]
    ensures Lower(s) == t
  {
  }

  /** One row of the results list. */
  datatype Entry = Entry(
    question: int,
    word: string,
    fontColor: string,
    condition: Condition,
    response: string,
    correct: bool,
    reactionTime: Option<real>)

  /** `answer if answer else "No Response"`: None and "" are falsy. */
  function ResponseText(answer: Option<string>): (r: string)
    ensures r != ""
    ensures answer.Some? && answer.value != "" ==> r == answer.value
    ensures answer.None? || answer.value == "" ==> r == "No Response"
  {
    if answer.Some? && answer.value != "" then answer.value else "No Response"
  }

  /** max(0, int(TIME_LIMIT - elapsed)). */
  function Countdown(elapsed: real): (r: int)
    ensures 0 <= r
    ensures elapsed >= 0.0 ==> r <= TIME_LIMIT
    ensures r > 0 ==> r as real <= TIME_LIMIT as real - elapsed < r as real + 1.0
  {
    var t := Trunc(TIME_LIMIT as real - elapsed);
    if t > 0 then t else 0
  }

  /** Because int() truncates, the countdown reaches 0, and a trial times
      out, once more than 4 seconds have elapsed. */
  lemma CountdownZeroIff(elapsed: real)
    ensures Countdown(elapsed) == 0 <==> elapsed > 4.0
  {
    TruncAtMostZero(TIME_LIMIT as real - elapsed);
  }

  // ---------------------------------------------------------------------
  // Aggregation

  function CountCorrect(rs: seq<Entry>): (n: nat)
    ensures n <= |rs|
  {
    if rs == [] then 0 else (if rs[|rs| - 1].correct then 1 else 0) + CountCorrect(rs[..|rs| - 1])
  }

  function CountIncorrect(rs: seq<Entry>): (n: nat)
    ensures n <= |rs|
  {
    if rs == [] then 0 else (if rs[|rs| - 1].correct then 0 else 1) + CountIncorrect(rs[..|rs| - 1])
  }

  /** total_trials - df["Correct"].sum() counts the incorrect rows. */
  lemma {:induction false} ErrorsAreIncorrect(rs: seq<Entry>)
    ensures |rs| - CountCorrect(rs) == CountIncorrect(rs)
  {
    if rs != [] {
      ErrorsAreIncorrect(rs[..|rs| - 1]);
    }
  }

  /** Reaction times, nulls dropped, of the correct rows, of one condition
      when `only` names one. */
  function CorrectTimes(rs: seq<Entry>, only: Option<Condition>): (r: seq<real>)
    ensures |r| <= |rs|
  {
    if rs == [] then []
    else
      var e := rs[|rs| - 1];
      CorrectTimes(rs[..|rs| - 1], only) + (if Kept(e, only) then [e.reactionTime.value] else [])
  }

  /** The list of times is empty exactly when no row qualifies. */
  lemma {:induction false} CorrectTimesEmpty(rs: seq<Entry>, only: Option<Condition>)
    ensures CorrectTimes(rs, only) == [] <==> forall i :: 0 <= i < |rs| ==> !Kept(rs[i], only)
  {
    if rs != [] {
      var front := rs[..|rs| - 1];
      CorrectTimesEmpty(front, only);
      assert forall i :: 0 <= i < |front| ==> front[i] == rs[i];
    }
  }

  /** A row whose time enters the means: correct, timed, and of the
      condition asked for, if one is. */
  predicate Kept(e: Entry, only: Option<Condition>) {
    e.correct && e.reactionTime.Some? && (only.None? || e.condition == only.value)
  }

  function Sum(xs: seq<real>): real {
    if xs == [] then 0.0 else Sum(xs[..|xs| - 1]) + xs[|xs| - 1]
  }

  /** The pandas mean: undefined (NaN, here None) for no values. */
  function Mean(xs: seq<real>): (m: Option<real>)
    ensures m.None? <==> xs == []
  {
    if xs == [] then None else Some(Sum(xs) / |xs| as real)
  }

  datatype StroopResult = StroopResult(
    errorRate: real,
    meanRT: Option<real>,
    interference: Option<real>,
    totalTrials: nat)

  /** The finish branch of run_stroop_test (before round(..., 2)). */
  function Summary(rs: seq<Entry>): (r: StroopResult)
    requires |rs| > 0
    ensures r.totalTrials == |rs|
    ensures 0.0 <= r.errorRate <= 100.0
    ensures r.errorRate == Percent(CountIncorrect(rs), |rs|)
    ensures r.meanRT == Mean(CorrectTimes(rs, None))
    ensures r.meanRT.None? <==> CorrectTimes(rs, None) == []
    ensures var cong, incong := Mean(CorrectTimes(rs, Some(Congruent))), Mean(CorrectTimes(rs, Some(Incongruent)));
            && (r.interference.Some? <==> cong.Some? && incong.Some? && incong.value - cong.value != 0.0)
            && (r.interference.Some? ==> r.interference.value == incong.value - cong.value)
  {
    StroopResult(ErrorRate(rs), Mean(CorrectTimes(rs, None)), Interference(rs), |rs|)
  }

  /** The mean incongruent minus the mean congruent reaction time over the
      correct answers; None when either mean is missing or the difference
      is 0 (a falsy value in the results table). */
  function Interference(rs: seq<Entry>): (r: Option<real>)
    ensures var cong, incong := Mean(CorrectTimes(rs, Some(Congruent))), Mean(CorrectTimes(rs, Some(Incongruent)));
            && (r.Some? <==> cong.Some? && incong.Some? && incong.value - cong.value != 0.0)
            && (r.Some? ==> r.value == incong.value - cong.value)
  {
    var cong := Mean(CorrectTimes(rs, Some(Congruent)));
    var incong := Mean(CorrectTimes(rs, Some(Incongruent)));
    var effect := if cong.Some? && incong.Some? then Some(incong.value - cong.value) else None;
    if effect.Some? && effect.value != 0.0 then effect else None
  }

  /** (errors / total_trials) * 100, with errors = total_trials minus the
      number of correct rows: the percentage of incorrect rows. */
  function ErrorRate(rs: seq<Entry>): (rate: real)
    requires |rs| > 0
    ensures 0.0 <= rate <= 100.0
    ensures rate == Percent(CountIncorrect(rs), |rs|)
    ensures rate * (|rs| as real) == 100.0 * (CountIncorrect(rs) as real)
  {
    var trials := |rs|;
    var errors := trials - CountCorrect(rs);
    ErrorsAreIncorrect(rs);
    RateBounds(errors, trials);
    (errors as real / trials as real) * 100.0
  }

  /** part as a percentage of whole. */
  function Percent(part: nat, whole: nat): real
    requires whole > 0
  {
    (part as real / whole as real) * 100.0
  }

  lemma RateBounds(part: nat, whole: nat)
    requires 0 < whole && part <= whole
    ensures var p := Percent(part, whole);
            0.0 <= p <= 100.0 && p * (whole as real) == 100.0 * (part as real)
  {
  }

  /** The all-timeouts scenario: 42 unanswered trials give a 100% error
      rate and no reaction-time statistics. */
  lemma AllTimedOut(rs: seq<Entry>)
    requires |rs| == TOTAL_QUESTIONS
    requires forall i :: 0 <= i < |rs| ==> !rs[i].correct && rs[i].reactionTime.None?
    ensures Summary(rs) == StroopResult(100.0, None, None, TOTAL_QUESTIONS)
  {
    NoneCorrect(rs);
  }

  lemma {:induction false} NoneCorrect(rs: seq<Entry>)
    requires forall i :: 0 <= i < |rs| ==> !rs[i].correct
    ensures CountCorrect(rs) == 0
    ensures CorrectTimes(rs, None) == []
    ensures CorrectTimes(rs, Some(Congruent)) == [] && CorrectTimes(rs, Some(Incongruent)) == []
  {
    if rs != [] {
      NoneCorrect(rs[..|rs| - 1]);
    }
  }

  // ---------------------------------------------------------------------
  // The runner

  /** The results list the runner keeps: row i is question i + 1, every
      row is for a well-formed trial, and a correct row has a time. */
  ghost predicate Rows(rs: seq<Entry>) {
    && (forall i :: 0 <= i < |rs| ==> rs[i].question == i + 1)
    && (forall i :: 0 <= i < |rs| ==> WellFormed(Trial(rs[i].word, rs[i].fontColor, rs[i].condition)))
    && (forall i :: 0 <= i < |rs| ==> rs[i].correct ==> rs[i].reactionTime.Some?)
  }

  /** A button label is a non-empty string, so it is recorded as typed. */
  lemma LabelResponse(button: string)
    requires button in COLOR_WORDS
    ensures ResponseText(Some(button)) == button
  {
    assert |button| >= 3;
  }

  lemma RowsAppend(rs: seq<Entry>, e: Entry)
    requires Rows(rs)
    requires e.question == |rs| + 1
    requires WellFormed(Trial(e.word, e.fontColor, e.condition))
    requires e.correct ==> e.reactionTime.Some?
    ensures Rows(rs + [e])
  {
  }

  /** The stroop_* session keys: the runner's state between passes. */
  class StroopRunner {
    var qIndex: int
    var results: seq<Entry>
    var startTime: real
    var word: string
    var color: string
    var condition: Condition
    var answered: bool

    /** One row per finished trial, numbered 1..k in order, each for a
        well-formed trial; timeouts are never correct; the flag is always
        clear between passes, since next_question resets it at once. */
    ghost predicate Valid()
      reads this
    {
      && 1 <= qIndex <= TOTAL_QUESTIONS + 1
      && |results| == qIndex - 1
      && Rows(results)
      && WellFormed(Trial(word, color, condition))
      && !answered
    }

    function Current(): Trial
      reads this
    {
      Trial(word, color, condition)
    }

    /** First entry: trial 1, an empty results list, the clock started. */
    constructor (now: real, p: Pick)
      requires ValidPick(p)
      ensures Valid()
      ensures qIndex == 1 && results == [] && startTime == now
      ensures Current() == GenerateQuestion(p) && !answered
    {
      qIndex := 1;
      results := [];
      startTime := now;
      var t := GenerateQuestion(p);
      word, color, condition := t.word, t.color, t.condition;
      answered := false;
    }

    /** record_response: append exactly one row at the end. */
    method RecordResponse(qNo: int, t: Trial, answer: Option<string>, correct: bool, rt: Option<real>)
      modifies this`results
      ensures results == old(results) + [Entry(qNo, t.word, t.color, t.condition, ResponseText(answer), correct, rt)]
      ensures |results| == |old(results)| + 1 && results[..|old(results)|] == old(results)
    {
      results := results + [Entry(qNo, t.word, t.color, t.condition, ResponseText(answer), correct, rt)];
      assert results[..|old(results)|] == old(results);
    }

    /** next_question: advance the index, restart the clock, clear the
        flag, draw the next trial. */
    method NextQuestion(now: real, p: Pick)
      requires ValidPick(p)
      modifies this`qIndex, this`startTime, this`answered, this`word, this`color, this`condition
      ensures qIndex == old(qIndex) + 1 && startTime == now && !answered
      ensures Current() == GenerateQuestion(p)
    {
      qIndex := qIndex + 1;
      startTime := now;
      answered := false;
      var t := GenerateQuestion(p);
      word, color, condition := t.word, t.color, t.condition;
    }

    /** A press of `button` at clock `now`, while the trial is unanswered:
        record the reaction time and correctness, then advance. */
    method Press(button: string, now: real, restart: real, p: Pick)
      requires Valid() && qIndex <= TOTAL_QUESTIONS
      requires button in COLOR_WORDS && ValidPick(p)
      modifies this
      ensures Valid()
      ensures results == old(results) + [Entry(old(qIndex), old(word), old(color), old(condition),
                                               button, COLORS[button] == old(color),
                                               Some(now - old(startTime)))]
      ensures qIndex == old(qIndex) + 1 && startTime == restart
      ensures Current() == GenerateQuestion(p)
    {
      if !answered {
        var rt := now - startTime;
        var correct := Lower(button) == color;
        PressCorrectness(button, color);
        LabelResponse(button);
        RowsAppend(results, Entry(qIndex, word, color, condition, button, correct, Some(rt)));
        RecordResponse(qIndex, Current(), Some(button), correct, Some(rt));
        answered := true;
        NextQuestion(restart, p);
      }
    }

    /** The countdown ran out with no press: record a null response,
        incorrect and without a reaction time, then advance. */
    method Timeout(restart: real, p: Pick)
      requires Valid() && qIndex <= TOTAL_QUESTIONS && ValidPick(p)
      modifies this
      ensures Valid()
      ensures results == old(results) + [Entry(old(qIndex), old(word), old(color), old(condition),
                                               "No Response", false, None)]
      ensures qIndex == old(qIndex) + 1 && startTime == restart
      ensures Current() == GenerateQuestion(p)
    {
      if !answered {
        RowsAppend(results, Entry(qIndex, word, color, condition, "No Response", false, None));
        RecordResponse(qIndex, Current(), None, false, None);
        NextQuestion(restart, p);
      }
    }

    /** run_stroop_test once the index is past the last trial. */
    function Finish(): (r: StroopResult)
      reads this
      requires Valid() && qIndex > TOTAL_QUESTIONS
      ensures r.totalTrials == TOTAL_QUESTIONS
      ensures 0.0 <= r.errorRate <= 100.0
    {
      Summary(results)
    }

    /** One pass of run_stroop_test after initialisation. Past the last
        trial it yields the summary (the caller then drops the runner, as
        the source deletes the stroop_ keys). Otherwise a press is handled
        first; without one, a countdown at 0 is a timeout. */
    method Pass(now: real, pressed: Option<string>, restart: real, p: Pick)
      returns (result: Option<StroopResult>)
      requires Valid() && ValidPick(p)
      requires pressed.Some? ==> pressed.value in COLOR_WORDS
      modifies this
      ensures Valid()
      ensures result.Some? <==> old(qIndex) > TOTAL_QUESTIONS
      ensures result.Some? ==> result == Some(Summary(old(results))) && unchanged(this)
      ensures result.None? && pressed.Some? ==>
                results == old(results) + [Entry(old(qIndex), old(word), old(color), old(condition),
                                                 pressed.value, COLORS[pressed.value] == old(color),
                                                 Some(now - old(startTime)))]
                && qIndex == old(qIndex) + 1 && startTime == restart && Current() == GenerateQuestion(p)
      ensures result.None? && pressed.None? && Countdown(now - old(startTime)) == 0 ==>
                results == old(results) + [Entry(old(qIndex), old(word), old(color), old(condition),
                                                 "No Response", false, None)]
                && qIndex == old(qIndex) + 1 && startTime == restart && Current() == GenerateQuestion(p)
      ensures result.None? && pressed.None? && Countdown(now - old(startTime)) > 0 ==>
                unchanged(this)
    {
      if qIndex > TOTAL_QUESTIONS {
        result := Some(Finish());
        return;
      }
      result := None;
      var elapsed := now - startTime;
      var remaining := Countdown(elapsed);
      if pressed.Some? && !answered {
        Press(pressed.value, now, restart, p);
      } else if remaining == 0 && !answered {
        Timeout(restart, p);
      }
    }
  }
}
