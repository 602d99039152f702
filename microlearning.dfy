/**
 * The micro-lesson modal (`MicrolearningModal`): the lesson list, the
 * premium filter that picks a lesson, and the step machine that walks
 * through the content steps to a quiz step that needs a selected answer.
 */
module Microlearning {
  import opened Wrappers

  datatype Quiz = Quiz(question: string, options: seq<string>, correct: nat)

  /** A lesson; content, question and options are short labels for the authored prose. */
  datatype Lesson = Lesson(
    id: string,
    title: string,
    duration: nat,
    content: seq<string>,
    quiz: Quiz,
    premium: bool)

  const EmergencyFundBasics := Lesson(
    "emergency_fund_basics", "Emergency Fund Essentials", 3,
    ["what it is", "three to six months", "money market fund", "start small"],
    Quiz("how much", ["one month", "three to six months", "one year", "ten thousand"], 1),
    false)

  const KenyanInvestmentBasics := Lesson(
    "kenyan_investment_basics", "Investing in Kenya 101", 4,
    ["saccos", "securities exchange", "government bonds", "money market", "diversify"],
    Quiz("safest option", ["cryptocurrency", "government bonds", "real estate", "digital lending"], 1),
    true)

  const DigitalLoanDangers := Lesson(
    "digital_loan_dangers", "Digital Loan Traps", 3,
    ["monthly interest", "credit score", "convenience", "total cost"],
    Quiz("major risk", ["too slow", "very high interest", "paperwork", "not on mobile"], 1),
    true)

  const Lessons := [EmergencyFundBasics, KenyanInvestmentBasics, DigitalLoanDangers]

  // ------------------------------------------------------------ selection

  predicate Available(l: Lesson, isPremium: bool)
  {
    !l.premium || isPremium
  }

  /** `lessons.filter(lesson => !lesson.premium || isPremium)`. */
  function AvailableLessons(lessons: seq<Lesson>, isPremium: bool): (r: seq<Lesson>)
    ensures |r| <= |lessons|
    ensures forall l :: l in r <==> l in lessons && Available(l, isPremium)
    ensures isPremium ==> r == lessons
  {
    if lessons == [] then []
    else if Available(lessons[0], isPremium) then [lessons[0]] + AvailableLessons(lessons[1..], isPremium)
    else AvailableLessons(lessons[1..], isPremium)
  }

  /** The filter keeps the first available lesson in front. */
  lemma {:induction false} FirstAvailableLeads(lessons: seq<Lesson>, isPremium: bool, i: nat)
    requires i < |lessons| && Available(lessons[i], isPremium)
    requires forall j :: 0 <= j < i ==> !Available(lessons[j], isPremium)
    ensures AvailableLessons(lessons, isPremium) != []
    ensures AvailableLessons(lessons, isPremium)[0] == lessons[i]
  {
    if i > 0 {
      assert !Available(lessons[0], isPremium);
      FirstAvailableLeads(lessons[1..], isPremium, i - 1);
    }
  }

  /** The lesson the selection effect picks: the first available one, if any. */
  function SelectLesson(lessons: seq<Lesson>, isPremium: bool): (r: Option<Lesson>)
    ensures r.None? <==> forall l :: l in lessons ==> !Available(l, isPremium)
    ensures r.Some? ==> r.value in lessons && Available(r.value, isPremium)
  {
    var available := AvailableLessons(lessons, isPremium);
    if |available| > 0 then assert available[0] in available; Some(available[0]) else None
  }

  /** The picked lesson is the earliest available one in the list. */
  lemma SelectLessonIsFirst(lessons: seq<Lesson>, isPremium: bool, i: nat)
    requires i < |lessons| && Available(lessons[i], isPremium)
    requires forall j :: 0 <= j < i ==> !Available(lessons[j], isPremium)
    ensures SelectLesson(lessons, isPremium) == Some(lessons[i])
  {
    FirstAvailableLeads(lessons, isPremium, i);
  }

  /** Every player, premium or not, is given the emergency fund lesson first. */
  lemma EveryPlayerStartsWithEmergencyFund(isPremium: bool)
    ensures SelectLesson(Lessons, isPremium) == Some(EmergencyFundBasics)
    ensures SelectLesson(Lessons, isPremium).value.id == "emergency_fund_basics"
  {
    SelectLessonIsFirst(Lessons, isPremium, 0);
  }

  /** Only a premium player can reach the two premium lessons through the filter. */
  lemma PremiumLessonsNeedPremium()
    ensures KenyanInvestmentBasics !in AvailableLessons(Lessons, false)
    ensures DigitalLoanDangers !in AvailableLessons(Lessons, false)
    ensures AvailableLessons(Lessons, true) == Lessons
  {
  }

  // ---------------------------------------------------------------- steps

  predicate IsContentStep(l: Lesson, step: nat)
  {
    step < |l.content|
  }

  predicate IsQuizStep(l: Lesson, step: nat)
  {
    step == |l.content|
  }

  /** The two step kinds never hold together, and within range exactly one holds. */
  lemma StepKinds(l: Lesson, step: nat)
    ensures !(IsContentStep(l, step) && IsQuizStep(l, step))
    ensures step <= |l.content| ==> IsContentStep(l, step) || IsQuizStep(l, step)
  {
  }

  /** The step and result flag after `handleNext`. */
  function Advance(l: Lesson, step: nat, selected: Option<nat>, showResult: bool): (r: (nat, bool))
    ensures IsContentStep(l, step) ==> r == (step + 1, showResult)
    ensures IsQuizStep(l, step) && selected.None? ==> r == (step, showResult)
    ensures IsQuizStep(l, step) && selected.Some? ==> r == (step, true)
    ensures step <= |l.content| ==> r.0 <= |l.content|
  {
    if IsContentStep(l, step) then (step + 1, showResult)
    else if IsQuizStep(l, step) && selected.Some? then (step, true)
    else (step, showResult)
  }

  /** The step reached after `n` presses of NEXT from step 0. */
  function StepAfter(l: Lesson, n: nat, selected: Option<nat>): nat
  {
    if n == 0 then 0 else Advance(l, StepAfter(l, n - 1, selected), selected, false).0
  }

  /** From step 0, NEXT walks the content one step at a time and stops at the quiz. */
  lemma {:induction false} StepAfterIsCapped(l: Lesson, n: nat, selected: Option<nat>)
    ensures StepAfter(l, n, selected) == if n <= |l.content| then n else |l.content|
  {
    if n > 0 {
      StepAfterIsCapped(l, n - 1, selected);
    }
  }

  /** The bar width `(currentStep + 1) / (content.length + 1)`, which lies in (0, 1] for every reachable step. */
  function ProgressFraction(l: Lesson, step: nat): (f: real)
    requires step <= |l.content|
    ensures 0.0 < f <= 1.0
    ensures f == 1.0 <==> IsQuizStep(l, step)
  {
    (step + 1) as real / (|l.content| + 1) as real
  }

  /** The answer shown as right is the one at the quiz's correct index. */
  predicate IsCorrect(selected: Option<nat>, q: Quiz)
  {
    selected == Some(q.correct)
  }

  /** Each lesson has content, and its quiz has exactly one correct option among its options. */
  lemma LessonsWellFormed()
    ensures forall l :: l in Lessons ==> |l.content| > 0 && l.quiz.correct < |l.quiz.options|
    ensures forall l, i: nat :: l in Lessons && i < |l.quiz.options| ==>
              (IsCorrect(Some(i), l.quiz) <==> i == l.quiz.correct)
    ensures forall l :: l in Lessons ==> !IsCorrect(None, l.quiz)
  {
  }

  // ---------------------------------------------------------------- state

  class LessonModal {
    var isOpen: bool
    var isPremium: bool
    var currentLesson: Option<Lesson>
    var currentStep: nat
    var isPlaying: bool
    var selectedAnswer: Option<nat>
    var showResult: bool

    /** The step never passes the quiz step of the lesson shown. */
    predicate Valid()
      reads this
    {
      currentLesson.Some? ==> currentStep <= |currentLesson.value.content|
    }

    /** What the modal renders: nothing unless it is open and has a lesson. */
    predicate Visible()
      reads this
    {
      isOpen && currentLesson.Some?
    }

    constructor(open: bool, premium: bool)
      ensures isOpen == open && isPremium == premium
      ensures currentLesson == None && currentStep == 0 && !isPlaying
      ensures selectedAnswer == None && !showResult
      ensures Valid()
    {
      isOpen := open;
      isPremium := premium;
      currentLesson := None;
      currentStep := 0;
      isPlaying := false;
      selectedAnswer := None;
      showResult := false;
    }

    /** New props arrive and the selection effect runs: an open modal without a lesson picks one and starts over. */
    method SetProps(open: bool, premium: bool)
      modifies this
      ensures isOpen == open && isPremium == premium
      ensures open && old(currentLesson).None? ==>
                currentLesson == SelectLesson(Lessons, premium) && currentStep == 0 &&
                !isPlaying && selectedAnswer == None && !showResult
      ensures !(open && old(currentLesson).None?) ==>
                currentLesson == old(currentLesson) && currentStep == old(currentStep) &&
                isPlaying == old(isPlaying) && selectedAnswer == old(selectedAnswer) && showResult == old(showResult)
      ensures open ==> currentLesson.Some?
      ensures old(Valid()) ==> Valid()
    {
      isOpen := open;
      isPremium := premium;
      if open && currentLesson.None? {
        var available := AvailableLessons(Lessons, premium);
        EveryPlayerStartsWithEmergencyFund(premium);
        if |available| > 0 {
          currentLesson := Some(available[0]);
          currentStep := 0;
          isPlaying := false;
          selectedAnswer := None;
          showResult := false;
        } else {
          assert false;
        }
      }
    }

    /** `handleNext`: a content step moves on by one; the quiz step shows the result once an answer is chosen. */
    method HandleNext()
      modifies this
      ensures old(currentLesson).Some? ==>
                (currentStep, showResult) ==
                Advance(old(currentLesson).value, old(currentStep), old(selectedAnswer), old(showResult))
      ensures old(currentLesson).None? ==> currentStep == old(currentStep) && showResult == old(showResult)
      ensures isOpen == old(isOpen) && isPremium == old(isPremium) && currentLesson == old(currentLesson)
      ensures isPlaying == old(isPlaying) && selectedAnswer == old(selectedAnswer)
      ensures old(Valid()) ==> Valid()
    {
      if currentLesson.Some? {
        var l := currentLesson.value;
        if IsContentStep(l, currentStep) {
          currentStep := currentStep + 1;
        } else if IsQuizStep(l, currentStep) && selectedAnswer.Some? {
          showResult := true;
        }
      }
    }

    /** An option button was pressed. */
    method SelectAnswer(index: nat)
      modifies this
      ensures selectedAnswer == Some(index)
      ensures isOpen == old(isOpen) && isPremium == old(isPremium) && currentLesson == old(currentLesson)
      ensures currentStep == old(currentStep) && isPlaying == old(isPlaying) && showResult == old(showResult)
      ensures old(Valid()) ==> Valid()
    {
      selectedAnswer := Some(index);
    }

    /** `togglePlay`. */
    method TogglePlay()
      modifies this
      ensures isPlaying == !old(isPlaying)
      ensures isOpen == old(isOpen) && isPremium == old(isPremium) && currentLesson == old(currentLesson)
      ensures currentStep == old(currentStep) && selectedAnswer == old(selectedAnswer) && showResult == old(showResult)
      ensures old(Valid()) ==> Valid()
    {
      isPlaying := !isPlaying;
    }

    /**
     * `handleComplete`: report the lesson id to the game and let the game close
     * the modal; the lesson state itself is kept.
     */
    method HandleComplete() returns (completed: Option<string>)
      modifies this
      ensures old(currentLesson).Some? ==> completed == Some(old(currentLesson).value.id)
      ensures old(currentLesson).None? ==> completed == None
      ensures !isOpen && isPremium == old(isPremium) && currentLesson == old(currentLesson)
      ensures currentStep == old(currentStep) && isPlaying == old(isPlaying)
      ensures selectedAnswer == old(selectedAnswer) && showResult == old(showResult)
      ensures old(Valid()) ==> Valid()
    {
      completed := if currentLesson.Some? then Some(currentLesson.value.id) else None;
      isOpen := false;
    }
  }
}
