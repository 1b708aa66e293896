// src/scenes/MathMode.js: the arithmetic mode's question engine and countdown.
// Random picks (`Phaser.Math.RND.pick`, `Math.random`, `Phaser.Math.Between`)
// are parameters within the ranges the source draws from. `spawnObstacle`
// and `completeSeries`, which MathMode calls but does not define, are
// recorded as requests.
module MathQuiz {
  import opened Timers
  import opened Levels
  import Players
  import Scene

  datatype Op = Plus | Minus | Times

  /** An inclusive operand range `[min, max]`. */
  datatype Range = Range(min: nat, max: nat)

  /**
   * One entry of DIFFICULTY_SETTINGS: levels 1 to 6 share one range among
   * their operators; levels 7 to 10 give each operator its own range.
   */
  datatype Tier =
    | Shared(range: Range, operators: seq<Op>)
    | PerOperator(addition: Range, subtraction: Range, multiplication: Range)

  const TopTier: int := 10

  function DifficultySettings(key: int): (t: Tier)
    requires 1 <= key <= TopTier
    ensures t.Shared? <==> key < 7
    ensures t.Shared? ==> |t.operators| >= 1
  {
    if key == 1 then Shared(Range(0, 10), [Plus])
    else if key == 2 then Shared(Range(5, 15), [Plus])
    else if key == 3 then Shared(Range(5, 20), [Plus, Minus])
    else if key == 4 then Shared(Range(10, 20), [Plus, Minus])
    else if key == 5 then Shared(Range(15, 25), [Plus, Minus])
    else if key == 6 then Shared(Range(15, 30), [Plus, Minus])
    else PerOperator(Range(20, 30), Range(20, 30), Range(0, 10))
  }

  /** The settings a level uses: levels past the table reuse its last entry. */
  function SettingsFor(level: int): Tier
    requires level >= 1
  {
    DifficultySettings(if level < TopTier then level else TopTier)
  }

  /** How many equally likely operator choices a level offers. */
  function ChoiceCount(level: int): nat
    requires level >= 1
  {
    var s := SettingsFor(level);
    if s.Shared? then |s.operators| else 3
  }

  /** The operator and operand range of choice `pick` (addition, subtraction, multiplication from level 7). */
  function Choice(level: int, pick: nat): (Op, Range)
    requires level >= 1 && pick < ChoiceCount(level)
  {
    var s := SettingsFor(level);
    if s.Shared? then (s.operators[pick], s.range)
    else if pick == 0 then (Plus, s.addition)
    else if pick == 1 then (Minus, s.subtraction)
    else (Times, s.multiplication)
  }

  predicate InRange(n: int, r: Range) { r.min <= n <= r.max }

  /**
   * Which operators each level can ask: only addition up to level 2,
   * addition or subtraction up to level 6, and from level 7 on each of the
   * three, one per choice; every level from 10 on behaves like level 10.
   */
  lemma OperatorsByLevel(level: int, pick: nat)
    requires level >= 1 && pick < ChoiceCount(level)
    ensures level <= 2 ==> ChoiceCount(level) == 1 && Choice(level, pick).0 == Plus
    ensures 3 <= level <= 6 ==> ChoiceCount(level) == 2 && Choice(level, pick).0 == [Plus, Minus][pick]
    ensures level >= 7 ==> ChoiceCount(level) == 3 && Choice(level, pick).0 == [Plus, Minus, Times][pick]
    ensures level >= TopTier ==> ChoiceCount(level) == ChoiceCount(TopTier) && Choice(level, pick) == Choice(TopTier, pick)
  {
  }

  /** The operands and operator as the question shows them. */
  datatype Problem = Problem(num1: nat, op: Op, num2: nat)

  /** The operator picked by `pick` on the drawn operands, larger first for subtraction. */
  function Pose(level: int, pick: nat, a: nat, b: nat): (p: Problem)
    requires level >= 1 && pick < ChoiceCount(level)
    requires InRange(a, Choice(level, pick).1) && InRange(b, Choice(level, pick).1)
    ensures p.op == Choice(level, pick).0
    ensures InRange(p.num1, Choice(level, pick).1) && InRange(p.num2, Choice(level, pick).1)
    ensures multiset{p.num1, p.num2} == multiset{a, b}
    ensures p.op == Minus ==> p.num1 >= p.num2
    ensures p.op != Minus ==> p.num1 == a && p.num2 == b
  {
    var op := Choice(level, pick).0;
    if op == Minus && a < b then Problem(b, op, a) else Problem(a, op, b)
  }

  function Evaluate(p: Problem): (answer: int)
    ensures p.op == Minus ==> answer + p.num2 == p.num1
    ensures p.op == Times && 1 <= p.num2 ==> p.num1 <= answer
    ensures (p.op == Minus ==> p.num2 <= p.num1) ==> 0 <= answer
  {
    match p.op
    case Plus => p.num1 + p.num2
    case Minus => p.num1 - p.num2
    case Times => p.num1 * p.num2
  }

  /** Every posed problem has a non-negative answer. */
  lemma PosedAnswerNonNegative(level: int, pick: nat, a: nat, b: nat)
    requires level >= 1 && pick < ChoiceCount(level)
    requires InRange(a, Choice(level, pick).1) && InRange(b, Choice(level, pick).1)
    ensures Evaluate(Pose(level, pick, a, b)) >= 0
  {
    var p := Pose(level, pick, a, b);
    if p.op == Times {
      assert p.num1 * p.num2 >= 0;
    }
  }

  // ---------------------------------------------------------------------
  // Decimal text

  predicate IsDigit(c: char) { '0' <= c <= '9' }

  function DigitChar(d: nat): (c: char)
    requires d < 10
    ensures IsDigit(c)
  {
    "0123456789"[d]
  }

  function DigitValue(c: char): (d: nat)
    requires IsDigit(c)
    ensures d < 10
  {
    (c as int - '0' as int) as nat
  }

  lemma DigitRoundTrip(d: nat)
    requires d < 10
    ensures DigitValue(DigitChar(d)) == d
  {
  }

  /** `n.toString()` for a non-negative integer: its decimal digits, no leading zero. */
  function NatToString(n: nat): (s: string)
    ensures |s| >= 1 && forall i :: 0 <= i < |s| ==> IsDigit(s[i])
    ensures s[|s| - 1] == DigitChar(n % 10)
    ensures |s| > 1 ==> s[0] != '0'
  {
    if n < 10 then [DigitChar(n)] else NatToString(n / 10) + [DigitChar(n % 10)]
  }

  /** The value of a string of decimal digits. */
  function ParseNat(s: string): nat
    requires forall i :: 0 <= i < |s| ==> IsDigit(s[i])
  {
    if s == [] then 0 else ParseNat(s[..|s| - 1]) * 10 + DigitValue(s[|s| - 1])
  }

  lemma {:induction false} ParseNatToString(n: nat)
    ensures ParseNat(NatToString(n)) == n
  {
    var s := NatToString(n);
    DigitRoundTrip(n % 10);
    if n >= 10 {
      ParseNatToString(n / 10);
      assert s[..|s| - 1] == NatToString(n / 10);
    }
  }

  // ---------------------------------------------------------------------
  // The hidden digit

  /** The answer as shown: its last character replaced by a blank. */
  function Hide(answer: string): (h: string)
    requires |answer| >= 1
    ensures |h| == |answer| && h[..|h| - 1] == answer[..|answer| - 1] && h[|h| - 1] == '_'
  {
    answer[..|answer| - 1] + "_"
  }

  /** The answer's last character, whose key codes are bound. */
  function ExpectedDigit(answer: string): char
    requires |answer| >= 1
  {
    answer[|answer| - 1]
  }

  /** Writing a digit into the blank. */
  function Restore(hidden: string, digit: char): (s: string)
    requires |hidden| >= 1
    ensures |s| == |hidden| && s[..|s| - 1] == hidden[..|hidden| - 1] && s[|s| - 1] == digit
  {
    hidden[..|hidden| - 1] + [digit]
  }

  /**
   * Hiding then restoring with the expected digit gives back the answer
   * text, which parses to the answer; the expected digit is its last digit.
   */
  lemma HideRestoreRoundTrip(n: nat)
    ensures Restore(Hide(NatToString(n)), ExpectedDigit(NatToString(n))) == NatToString(n)
    ensures ParseNat(Restore(Hide(NatToString(n)), ExpectedDigit(NatToString(n)))) == n
    ensures DigitValue(ExpectedDigit(NatToString(n))) == n % 10
  {
    var s := NatToString(n);
    var r := Restore(Hide(s), ExpectedDigit(s));
    assert r == s[..|s| - 1] + [s[|s| - 1]] == s;
    ParseNatToString(n);
    DigitRoundTrip(n % 10);
  }

  /** Only the expected digit fills the blank back to the answer. */
  lemma OnlyExpectedDigitRestores(answer: string, digit: char)
    requires |answer| >= 1
    ensures Restore(Hide(answer), digit) == answer <==> digit == ExpectedDigit(answer)
  {
    var r := Restore(Hide(answer), digit);
    if digit == ExpectedDigit(answer) {
      assert r == answer[..|answer| - 1] + [answer[|answer| - 1]] == answer;
    }
  }

  function OpSymbol(op: Op): string
  {
    match op
    case Plus => "+"
    case Minus => "-"
    case Times => "*"
  }

  /** `currentQuestion`: the text shown and the digit that answers it. */
  datatype Question = Question(display: string, answer: char)

  /** `${num1} ${op} ${num2} = ${hiddenAnswer}` with the last digit of the answer to find. */
  function MakeQuestion(p: Problem): (q: Question)
    requires Evaluate(p) >= 0
    ensures IsDigit(q.answer) && DigitValue(q.answer) == Evaluate(p) % 10
    ensures q.display == NatToString(p.num1) + " " + OpSymbol(p.op) + " " + NatToString(p.num2)
                         + " = " + Hide(NatToString(Evaluate(p)))
  {
    var answerStr := NatToString(Evaluate(p));
    HideRestoreRoundTrip(Evaluate(p));
    Question(NatToString(p.num1) + " " + OpSymbol(p.op) + " " + NatToString(p.num2) + " = " + Hide(answerStr),
             ExpectedDigit(answerStr))
  }

  // ---------------------------------------------------------------------
  // Jump keys

  /** Key code of the digit on the number row (48 is '0') and on the numeric pad (96 is NUMPAD_0). */
  function JumpKeyCodes(answer: char): (keys: seq<int>)
    requires IsDigit(answer)
    ensures |keys| == 2
    ensures 48 <= keys[0] <= 57 && 96 <= keys[1] <= 105
    ensures keys[0] - 48 == keys[1] - 96 == DigitValue(answer)
  {
    var d := DigitValue(answer);
    [48 + d, 96 + d]
  }

  /** Two different digits never share a bound key code. */
  lemma JumpKeysDisjoint(c: char, e: char)
    requires IsDigit(c) && IsDigit(e) && c != e
    ensures forall k :: k in JumpKeyCodes(c) ==> k !in JumpKeyCodes(e)
  {
  }

  // ---------------------------------------------------------------------
  // Countdown length

  function Pow(b: real, e: nat): real
  {
    if e == 0 then 1.0 else b * Pow(b, e - 1)
  }

  function Ceil(r: real): (c: int)
    ensures r <= c as real < r + 1.0
  {
    -((-r).Floor)
  }

  /** `Math.max(2, Math.ceil(5 * 0.8 ** (level - 1)))`, in exact arithmetic. */
  function CountdownStart(level: int): (seconds: int)
    requires level >= 1
    ensures 2 <= seconds && 5.0 * Pow(0.8, level - 1) <= seconds as real
    ensures seconds == 2 || (seconds - 1) as real < 5.0 * Pow(0.8, level - 1)
  {
    var c := Ceil(5.0 * Pow(0.8, level - 1));
    if c < 2 then 2 else c
  }

  lemma {:induction false} PowDecays(e: nat)
    requires e >= 5
    ensures 0.0 <= Pow(0.8, e) <= Pow(0.8, 5)
  {
    if e > 5 {
      PowDecays(e - 1);
      assert Pow(0.8, e) == 0.8 * Pow(0.8, e - 1);
    }
  }

  /**
   * The countdown lasts 5 s on level 1, 4 s on levels 2 and 3, 3 s on
   * levels 4 and 5 and 2 s from level 6 on.
   */
  lemma CountdownTable(level: int)
    requires level >= 1
    ensures CountdownStart(level) ==
      if level == 1 then 5 else if level <= 3 then 4 else if level <= 5 then 3 else 2
  {
    if level >= 6 {
      PowDecays(level - 1);
      assert Pow(0.8, 5) == 0.32768;
      assert 5.0 * Pow(0.8, level - 1) <= 1.6384;
    } else {
      assert Pow(0.8, 0) == 1.0;
      assert Pow(0.8, 1) == 0.8;
      assert Pow(0.8, 2) == 0.64;
      assert Pow(0.8, 3) == 0.512;
      assert Pow(0.8, 4) == 0.4096;
    }
  }

  /** The countdown is between 2 and 5 seconds and never grows with the level. */
  lemma CountdownShrinks(level: int, later: int)
    requires 1 <= level <= later
    ensures 2 <= CountdownStart(level) <= 5
    ensures CountdownStart(later) <= CountdownStart(level)
  {
    CountdownTable(level);
    CountdownTable(later);
  }

  // ---------------------------------------------------------------------
  // The scene

  const TickMs: nat := 1000
  const CompletionDelayMs: nat := 1000

  /** The timer the last countdown tick registers: `completeSeries` one second later. */
  datatype MathEvent = CompleteSeries

  class MathMode {
    const levelManager: LevelManager
    var isSpawningQuestion: bool
    var currentQuestion: Option<Question>
    var questionText: string
    var countdownText: string
    /** Key codes bound for the answer digit (`player.jumpKeyObj`); the player never reads them. */
    var jumpKeys: seq<int>
    var timeLeft: int
    /** Firings left to the repeating countdown timer; 0 when there is none or it was destroyed. */
    var countdownFires: nat
    /** Calls to `spawnObstacle`, which MathMode uses without defining. */
    var obstacleRequests: nat
    var timers: seq<Timer<MathEvent>>

    /**
     * While the countdown runs, the seconds left equal its remaining
     * firings; a current question has exactly its answer digit's two key
     * codes bound (nothing reads them).
     */
    ghost predicate Valid()
      reads this, levelManager, levelManager.scene.backgrounds
    {
      && levelManager.Valid()
      && (countdownFires > 0 ==> timeLeft == countdownFires)
      && (currentQuestion.Some? ==>
            IsDigit(currentQuestion.value.answer) && jumpKeys == JumpKeyCodes(currentQuestion.value.answer))
    }

    constructor (lm: LevelManager)
      requires lm.Valid()
      ensures Valid() && levelManager == lm
      ensures !isSpawningQuestion && currentQuestion == None && countdownFires == 0
      ensures jumpKeys == [] && timers == [] && obstacleRequests == 0
    {
      levelManager := lm;
      isSpawningQuestion := false;
      currentQuestion := None;
      questionText, countdownText := "", "";
      jumpKeys := [];
      timeLeft := 0;
      countdownFires := 0;
      obstacleRequests := 0;
      timers := [];
    }

    /** Forgets the question, blanks both texts and destroys the countdown timer. */
    method ClearQuestion()
      requires Valid()
      modifies this
      ensures Valid()
      ensures currentQuestion == None && questionText == "" && countdownText == "" && countdownFires == 0
      ensures isSpawningQuestion == old(isSpawningQuestion) && jumpKeys == old(jumpKeys)
      ensures timeLeft == old(timeLeft) && obstacleRequests == old(obstacleRequests) && timers == old(timers)
    {
      currentQuestion := None;
      questionText := "";
      countdownText := "";
      countdownFires := 0;
    }

    /** Replaces the jump keys by the two keys of `answer`'s digit. */
    method SetupJumpKeys(answer: char)
      requires IsDigit(answer)
      modifies this
      ensures jumpKeys == JumpKeyCodes(answer)
      ensures currentQuestion == old(currentQuestion) && questionText == old(questionText)
      ensures countdownText == old(countdownText) && countdownFires == old(countdownFires)
      ensures isSpawningQuestion == old(isSpawningQuestion) && timeLeft == old(timeLeft)
      ensures obstacleRequests == old(obstacleRequests) && timers == old(timers)
    {
      jumpKeys := JumpKeyCodes(answer);
    }

    /**
     * Poses a question for the current level from choice `pick` and the
     * drawn operands `a` and `b`, shows it and binds its digit's keys.
     */
    method GenerateQuestion(pick: nat, a: nat, b: nat)
      requires Valid()
      requires pick < ChoiceCount(levelManager.currentLevel)
      requires InRange(a, Choice(levelManager.currentLevel, pick).1)
      requires InRange(b, Choice(levelManager.currentLevel, pick).1)
      modifies this
      ensures Valid()
      ensures var p := Pose(levelManager.currentLevel, pick, a, b);
        Evaluate(p) >= 0 && currentQuestion == Some(MakeQuestion(p))
      ensures questionText == currentQuestion.value.display
      ensures jumpKeys == JumpKeyCodes(currentQuestion.value.answer)
      ensures countdownText == old(countdownText) && countdownFires == old(countdownFires)
      ensures isSpawningQuestion == old(isSpawningQuestion) && timeLeft == old(timeLeft)
      ensures obstacleRequests == old(obstacleRequests) && timers == old(timers)
    {
      var level := levelManager.currentLevel;
      var problem := Pose(level, pick, a, b);
      PosedAnswerNonNegative(level, pick, a, b);
      currentQuestion := Some(MakeQuestion(problem));
      questionText := currentQuestion.value.display;
      SetupJumpKeys(currentQuestion.value.answer);
    }

    /**
     * Replaces any running countdown by one of `CountdownStart(level)`
     * seconds, ticking once per second, and raises the level manager's
     * series guard so no obstacle series starts meanwhile.
     */
    method StartCountdown()
      requires Valid()
      modifies this, levelManager
      ensures Valid()
      ensures timeLeft == CountdownStart(levelManager.currentLevel) && countdownFires == timeLeft
      ensures countdownText == NatToString(timeLeft)
      ensures levelManager.isSpawningSeries
      ensures levelManager.currentLevel == old(levelManager.currentLevel)
      ensures levelManager.currentSeries == old(levelManager.currentSeries)
      ensures levelManager.seriesInLevel == old(levelManager.seriesInLevel)
      ensures levelManager.currentSpeed == old(levelManager.currentSpeed)
      ensures levelManager.pending == old(levelManager.pending)
      ensures currentQuestion == old(currentQuestion) && questionText == old(questionText)
      ensures jumpKeys == old(jumpKeys) && isSpawningQuestion == old(isSpawningQuestion)
      ensures obstacleRequests == old(obstacleRequests) && timers == old(timers)
    {
      countdownFires := 0;
      var level := levelManager.currentLevel;
      CountdownShrinks(level, level);
      timeLeft := CountdownStart(level);
      countdownText := NatToString(timeLeft);
      levelManager.isSpawningSeries := true;
      countdownFires := timeLeft;
    }

    /**
     * One firing of the countdown timer. Until the last one it shows the
     * seconds left; the last one blanks the text, frees the question guard,
     * requests one obstacle and schedules the series' completion.
     */
    method CountdownTick()
      requires Valid() && countdownFires > 0
      modifies this
      ensures Valid()
      ensures timeLeft == old(timeLeft) - 1 && countdownFires == old(countdownFires) - 1
      ensures countdownFires > 0 ==>
        countdownText == NatToString(timeLeft) && isSpawningQuestion == old(isSpawningQuestion)
        && obstacleRequests == old(obstacleRequests) && timers == old(timers)
      ensures countdownFires == 0 ==>
        countdownText == "" && !isSpawningQuestion && obstacleRequests == old(obstacleRequests) + 1
        && timers == old(timers) + [Timer(CompletionDelayMs, CompleteSeries)]
      ensures currentQuestion == old(currentQuestion) && questionText == old(questionText)
      ensures jumpKeys == old(jumpKeys)
    {
      countdownFires := countdownFires - 1;
      timeLeft := timeLeft - 1;
      if timeLeft > 0 {
        countdownText := NatToString(timeLeft);
      } else {
        countdownText := "";
        isSpawningQuestion := false;
        obstacleRequests := obstacleRequests + 1;
        timers := timers + [Timer(CompletionDelayMs, CompleteSeries)];
      }
    }

    /**
     * Starts a question round unless one is already running: clears the old
     * question, poses a new one and starts its countdown.
     */
    method SpawnSeries(pick: nat, a: nat, b: nat)
      requires Valid()
      requires pick < ChoiceCount(levelManager.currentLevel)
      requires InRange(a, Choice(levelManager.currentLevel, pick).1)
      requires InRange(b, Choice(levelManager.currentLevel, pick).1)
      modifies this, levelManager
      ensures Valid()
      ensures levelManager.currentLevel == old(levelManager.currentLevel)
      ensures levelManager.pending == old(levelManager.pending)
      ensures levelManager.currentSeries == old(levelManager.currentSeries)
      ensures levelManager.seriesInLevel == old(levelManager.seriesInLevel)
      ensures levelManager.currentSpeed == old(levelManager.currentSpeed)
      ensures old(isSpawningQuestion) ==> unchanged(this) && unchanged(levelManager)
      ensures !old(isSpawningQuestion) ==>
        && isSpawningQuestion && levelManager.isSpawningSeries
        && Evaluate(Pose(levelManager.currentLevel, pick, a, b)) >= 0
        && currentQuestion == Some(MakeQuestion(Pose(levelManager.currentLevel, pick, a, b)))
        && questionText == currentQuestion.value.display
        && jumpKeys == JumpKeyCodes(currentQuestion.value.answer)
        && timeLeft == CountdownStart(levelManager.currentLevel) && countdownFires == timeLeft
        && countdownText == NatToString(timeLeft)
      ensures obstacleRequests == old(obstacleRequests) && timers == old(timers)
    {
      if isSpawningQuestion {
        return;
      }
      isSpawningQuestion := true;
      ClearQuestion();
      GenerateQuestion(pick, a, b);
      StartCountdown();
    }
  }

  /**
   * Level 1, drawing 7 and 5: the player sees "7 + 5 = 1_", the keys of 2
   * are bound, a second round is refused, and the fifth tick releases one obstacle.
   */
  method QuestionScenario()
  {
    var p := new Players.Player(100.0, 260.0);
    var s := new Scene.GameScene(p);
    var lm := new LevelManager(s, 6);
    var mm := new MathMode(lm);
    mm.SpawnSeries(0, 7, 5);
    assert NatToString(12) == "12";
    assert mm.questionText == "7 + 5 = 1_";
    assert mm.jumpKeys == [50, 98];
    CountdownTable(1);
    assert mm.countdownFires == 5;
    mm.SpawnSeries(0, 1, 1);
    assert mm.jumpKeys == [50, 98];
    mm.CountdownTick();
    mm.CountdownTick();
    mm.CountdownTick();
    mm.CountdownTick();
    assert mm.obstacleRequests == 0 && mm.isSpawningQuestion;
    mm.CountdownTick();
    assert mm.obstacleRequests == 1 && !mm.isSpawningQuestion && mm.countdownFires == 0;
  }
}
