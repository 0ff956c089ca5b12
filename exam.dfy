/**
 * The final exam modal: a four-step machine (idle, dice, reveal, result)
 * that rolls one die, adds the gpa, and settles the session as a pass or a
 * fail.
 */
module Exam {
  import JsBuiltins
  import GameStore

  datatype Step = Idle | Dice | Reveal | Result

  /** The exam is passed when the roll plus the gpa reaches 10. */
  predicate HavePassed(number: int, gpa: real): (passed: bool)
    ensures passed <==> gpa >= (10 - number) as real
  {
    number as real + gpa >= 10.0
  }

  /** What the modal shows at each step; the result step picks the win or the lose screen. */
  datatype Screen = IdleScreen | DiceScreen | RevealScreen(rolled: int) | WinScreen(rolled: int) | LoseScreen(rolled: int)

  function ScreenFor(step: Step, number: int, gpa: real): (r: Screen)
    ensures step == Idle <==> r == IdleScreen
    ensures step == Dice <==> r == DiceScreen
    ensures step == Reveal <==> r == RevealScreen(number)
    ensures step == Result ==> (r == WinScreen(number) <==> HavePassed(number, gpa))
    ensures step == Result ==> (r == LoseScreen(number) <==> !HavePassed(number, gpa))
  {
    match step
    case Idle => IdleScreen
    case Dice => DiceScreen
    case Reveal => RevealScreen(number)
    case Result => if HavePassed(number, gpa) then WinScreen(number) else LoseScreen(number)
  }

  /**
   * With one six-sided die, a gpa below 4 can never pass and a gpa of 9 or
   * more always passes; in particular the starting gpa of 2 never passes.
   */
  lemma PassDependsOnGpa(roll: int, gpa: real)
    requires 1 <= roll <= 6
    ensures gpa < 4.0 ==> !HavePassed(roll, gpa)
    ensures gpa >= 9.0 ==> HavePassed(roll, gpa)
    ensures HavePassed(roll, gpa) <==> gpa >= (10 - roll) as real
  {
  }

  class Exam {
    var isOpen: bool
    var step: Step
    var number: int

    constructor ()
      ensures !isOpen && step == Idle && number == 0
    {
      isOpen, step, number := false, Idle, 0;
    }

    /** Taking the bus opens the modal. */
    method Open()
      modifies this`isOpen
      ensures isOpen
    {
      isOpen := true;
    }

    method HandleClose()
      modifies this`isOpen
      ensures !isOpen
    {
      isOpen := false;
    }

    method HandleStart()
      modifies this`step
      ensures step == Dice
    {
      step := Dice;
    }

    /** Rolls the die (`random` stands for `Math.random()`) and shows the number. */
    method HandleRoll(random: real)
      requires 0.0 <= random < 1.0
      modifies this`number, this`step
      ensures number == JsBuiltins.RollDie(random) && 1 <= number <= 6
      ensures step == Reveal
    {
      number := JsBuiltins.RollDie(random);
      step := Reveal;
    }

    /** The delayed step after a roll: the reveal gives way to the result. */
    method RevealElapsed()
      modifies this`step
      ensures step == Result
    {
      step := Result;
    }

    /**
     * Settles the exam in the store, as a pass exactly when the number plus
     * the store's gpa reaches 10, then closes the modal and starts over.
     */
    method HandleRestart(store: GameStore.Store, spawn: GameStore.SpawnConfig)
      requires store.Valid()
      modifies this`isOpen, this`step, store
      ensures store.Valid()
      ensures var result := if HavePassed(number, old(store.gpa)) then GameStore.Pass else GameStore.Fail;
              store.Snapshot() == GameStore.ExamOutcome(old(store.Snapshot()), result, spawn)
      ensures !isOpen && step == Idle && number == old(number)
    {
      var passed := number as real + store.gpa >= 10.0;
      store.HandleExam(if passed then GameStore.Pass else GameStore.Fail, spawn);
      isOpen := false;
      step := Idle;
    }
  }
}
