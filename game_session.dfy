/**
 * The game session (`GameEngine`): the progress record of a player, the
 * rules that update it after a choice, a new scenario, a reset or a
 * finished lesson, and the component state that shows the current
 * scenario and the last outcome.
 */
module GameSession {
  import opened Wrappers
  import opened Draws
  import opened Scenarios
  import opened OutcomeEngine

  /** The saved progress: money, badges in the order earned, current scenario id and the `scenario_state` memo. */
  datatype Progress = Progress(
    moneySaved: real,
    badges: seq<string>,
    currentScenario: string,
    scenarioState: map<string, string>)

  const StartingMoney: real := 50000.0
  const StartId := "rent_increase"
  const LessonReward: real := 2500.0
  const LastChoiceKey := "lastChoice"
  const LastOutcomeKey := "lastOutcome"

  /** The record a new or reset game starts from. */
  const StartingProgress := Progress(StartingMoney, [], StartId, map[])

  predicate NoDuplicates(s: seq<string>)
  {
    forall i, j :: 0 <= i < j < |s| ==> s[i] != s[j]
  }

  /** What every progress record produced by the rules satisfies. */
  predicate WellFormed(p: Progress)
  {
    p.moneySaved >= 0.0 && NoDuplicates(p.badges)
  }

  // -------------------------------------------------------- update rules

  /** `Math.max(0, money + change)`. */
  function NewMoney(money: real, change: real): (r: real)
    ensures r >= 0.0 && r >= money + change
    ensures r == 0.0 || r == money + change
  {
    if money + change > 0.0 then money + change else 0.0
  }

  /** The badge list after an outcome: the badge is appended only when there is one and it is not yet held. */
  function NewBadges(badges: seq<string>, earned: Option<string>): (r: seq<string>)
    ensures |badges| <= |r| <= |badges| + 1 && r[..|badges|] == badges
    ensures |r| == |badges| + 1 <==> earned.Some? && earned.value !in badges
    ensures forall b :: b in r <==> b in badges || earned == Some(b)
    ensures NoDuplicates(badges) ==> NoDuplicates(r)
  {
    if earned.Some? && earned.value !in badges then badges + [earned.value] else badges
  }

  /** The memo after a choice: every key is kept; only the last choice and the last outcome are overwritten. */
  function RecordChoice(state: map<string, string>, choiceId: string, narrative: string): (r: map<string, string>)
    ensures r.Keys == state.Keys + {LastChoiceKey, LastOutcomeKey}
    ensures r[LastChoiceKey] == choiceId && r[LastOutcomeKey] == narrative
    ensures forall k :: k in state && k != LastChoiceKey && k != LastOutcomeKey ==> r[k] == state[k]
  {
    state[LastChoiceKey := choiceId][LastOutcomeKey := narrative]
  }

  /** The progress record after a choice with outcome `o`. */
  function ApplyOutcome(p: Progress, choice: Choice, o: Outcome): (r: Progress)
    ensures r.moneySaved == NewMoney(p.moneySaved, o.moneyChange) && r.badges == NewBadges(p.badges, o.badgeEarned)
    ensures r.scenarioState == RecordChoice(p.scenarioState, choice.id, o.narrative)
    ensures r.moneySaved >= 0.0
    ensures r.currentScenario == p.currentScenario
    ensures WellFormed(p) ==> WellFormed(r)
  {
    Progress(NewMoney(p.moneySaved, o.moneyChange), NewBadges(p.badges, o.badgeEarned),
             p.currentScenario, RecordChoice(p.scenarioState, choice.id, o.narrative))
  }

  /** The progress record after a finished lesson: 2500 more, with no clamp. */
  function WithLessonBonus(p: Progress): (r: Progress)
    ensures r.moneySaved - p.moneySaved == LessonReward
    ensures r.badges == p.badges && r.currentScenario == p.currentScenario && r.scenarioState == p.scenarioState
    ensures WellFormed(p) ==> WellFormed(r)
  {
    p.(moneySaved := p.moneySaved + LessonReward)
  }

  /** Earning the same badge twice changes nothing the second time. */
  lemma NewBadgesIdempotent(badges: seq<string>, earned: Option<string>)
    ensures NewBadges(NewBadges(badges, earned), earned) == NewBadges(badges, earned)
  {
  }

  /**
   * The fallback outcome of a failed generation, once folded in, leaves the
   * money and the badges of a record with non-negative money as they were;
   * only the memo records the choice.
   */
  lemma ErrorLeavesRecord(p: Progress, choice: Choice)
    requires p.moneySaved >= 0.0
    ensures ApplyOutcome(p, choice, Settle(Threw)).moneySaved == p.moneySaved
    ensures ApplyOutcome(p, choice, Settle(Threw)).badges == p.badges
    ensures ApplyOutcome(p, choice, Settle(Threw)).scenarioState ==
            p.scenarioState[LastChoiceKey := choice.id][LastOutcomeKey := GenerationError.narrative]
  {
  }

  lemma StartingProgressWellFormed()
    ensures WellFormed(StartingProgress)
  {
  }

  // --------------------------------------------------------------- level

  datatype Level = Beginner | Intermediate | Advanced | Expert

  function Rank(l: Level): nat
  {
    match l
    case Beginner => 0
    case Intermediate => 1
    case Advanced => 2
    case Expert => 3
  }

  /** The level shown for an amount: its rank counts the thresholds 100000, 250000 and 400000 reached. */
  function LevelName(money: real): (l: Level)
    ensures Rank(l) == (if money >= 100000.0 then 1 else 0) + (if money >= 250000.0 then 1 else 0) +
                       (if money >= 400000.0 then 1 else 0)
  {
    if money < 100000.0 then Beginner
    else if money < 250000.0 then Intermediate
    else if money < 400000.0 then Advanced
    else Expert
  }

  /** The level never goes down as money rises. */
  lemma LevelMonotone(a: real, b: real)
    requires a <= b
    ensures Rank(LevelName(a)) <= Rank(LevelName(b))
  {
  }

  // ----------------------------------------------------- scenario choice

  /** `getScenarioById(id) || catalog[0] || getRandomScenario()` over a catalog. */
  function SelectInitial(current: string, catalog: seq<Scenario>, r: Unit): (s: Option<Scenario>)
    ensures s.None? <==> catalog == []
    ensures Find(catalog, current).Some? ==> s == Find(catalog, current)
    ensures Find(catalog, current).None? && catalog != [] ==> s == Some(catalog[0])
    ensures s.Some? ==> s.value in catalog
  {
    match Find(catalog, current)
    case Some(found) => Some(found)
    case None => if catalog != [] then Some(catalog[0]) else RandomPick(catalog, r)
  }

  /** With the game's catalog the initial scenario always resolves, so the error state is never entered. */
  lemma InitialAlwaysResolves(current: string, r: Unit)
    ensures SelectInitial(current, Catalog, r).Some?
    ensures current == StartId ==> SelectInitial(current, Catalog, r) == Some(Scenarios.RentIncrease)
  {
    if current == StartId {
      StartIdIsFirst();
    }
  }

  /** `getScenarioById('rent_increase') || scenarios[0]`. */
  function StartScenario(): (s: Scenario)
    ensures s == Catalog[0] && s.id == StartId
  {
    StartIdIsFirst();
    match GetScenarioById(StartId)
    case Some(found) => found
    case None => assert false; Scenarios.RentIncrease
  }

  // --------------------------------------------------------------- state

  class Game {
    var progress: Option<Progress>
    var currentScenario: Option<Scenario>
    var showOutcome: bool
    var lastOutcome: Option<Outcome>
    var error: Option<string>
    var isPremium: bool
    var dailyLessonsCompleted: nat

    constructor()
      ensures progress == None && currentScenario == None && !showOutcome && lastOutcome == None
      ensures error == None && !isPremium && dailyLessonsCompleted == 0
    {
      progress := None;
      currentScenario := None;
      showOutcome := false;
      lastOutcome := None;
      error := None;
      isPremium := false;
      dailyLessonsCompleted := 0;
    }

    /** The persistence layer delivers the player's record. */
    method ReceiveProgress(p: Progress)
      modifies this
      ensures progress == Some(p)
      ensures currentScenario == old(currentScenario) && showOutcome == old(showOutcome)
      ensures lastOutcome == old(lastOutcome) && error == old(error)
      ensures isPremium == old(isPremium) && dailyLessonsCompleted == old(dailyLessonsCompleted)
    {
      progress := Some(p);
    }

    /** The first effect: once progress is known and nothing is shown, resolve the scenario to show. */
    method ResolveInitialScenario(r: Unit)
      modifies this
      ensures old(progress).Some? && old(currentScenario).None? ==>
                currentScenario == SelectInitial(old(progress).value.currentScenario, Catalog, r)
      ensures !(old(progress).Some? && old(currentScenario).None?) ==> currentScenario == old(currentScenario)
      ensures error == old(error)
      ensures currentScenario.Some? ==> old(currentScenario).Some? || currentScenario.value in Catalog
      ensures progress == old(progress) && showOutcome == old(showOutcome) && lastOutcome == old(lastOutcome)
      ensures isPremium == old(isPremium) && dailyLessonsCompleted == old(dailyLessonsCompleted)
    {
      if progress.Some? && currentScenario.None? {
        match SelectInitial(progress.value.currentScenario, Catalog, r)
        case Some(found) =>
          currentScenario := Some(found);
        case None =>
          // the catalog is not empty, so the error state of the source is never entered
          assert false;
      }
    }

    /** `handleChoice`: generate the outcome, show it, and fold it into the progress record. */
    method HandleChoice(choice: Choice, d: Stream)
      modifies this
      ensures old(currentScenario).None? || old(progress).None? ==>
                progress == old(progress) && lastOutcome == old(lastOutcome) &&
                showOutcome == old(showOutcome) && error == old(error)
      ensures old(currentScenario).Some? && old(progress).Some? ==>
                lastOutcome == Some(GenerateOutcome(choice.text,
                  Context(Some(old(currentScenario).value.title), Some(old(progress).value.moneySaved), old(isPremium)), d)) &&
                progress == Some(ApplyOutcome(old(progress).value, choice, lastOutcome.value)) &&
                showOutcome && error == None
      ensures progress.Some? && old(currentScenario).Some? ==>
                progress.value.moneySaved >= 0.0 && progress.value.currentScenario == old(progress).value.currentScenario
      ensures currentScenario == old(currentScenario) && isPremium == old(isPremium)
      ensures dailyLessonsCompleted == old(dailyLessonsCompleted)
    {
      if currentScenario.None? || progress.None? {
        return;
      }
      var p := progress.value;
      error := None;
      var outcome := GenerateOutcome(choice.text, Context(Some(currentScenario.value.title), Some(p.moneySaved), isPremium), d);
      lastOutcome := Some(outcome);
      showOutcome := true;
      progress := Some(ApplyOutcome(p, choice, outcome));
    }

    /** `nextScenario`: clear the outcome and show a random catalog scenario, recording its id. */
    method NextScenario(r: Unit)
      modifies this
      ensures currentScenario == Some(GetRandomScenario(r)) && currentScenario.value in Catalog
      ensures !showOutcome && lastOutcome == None && error == None
      ensures old(progress).Some? ==>
                progress == Some(old(progress).value.(currentScenario := currentScenario.value.id))
      ensures old(progress).None? ==> progress == None
      ensures isPremium == old(isPremium) && dailyLessonsCompleted == old(dailyLessonsCompleted)
    {
      showOutcome := false;
      lastOutcome := None;
      error := None;
      var next := GetRandomScenario(r);
      currentScenario := Some(next);
      if progress.Some? {
        progress := Some(progress.value.(currentScenario := next.id));
      }
    }

    /** `resetGame`: the record returns to its starting values and the first scenario is shown. */
    method ResetGame()
      modifies this
      ensures old(progress).Some? ==> progress == Some(StartingProgress)
      ensures old(progress).None? ==> progress == None
      ensures currentScenario == Some(Scenarios.RentIncrease) && currentScenario.value.id == StartId
      ensures !showOutcome && lastOutcome == None && error == None
      ensures isPremium == old(isPremium) && dailyLessonsCompleted == old(dailyLessonsCompleted)
    {
      error := None;
      if progress.Some? {
        progress := Some(StartingProgress);
      }
      currentScenario := Some(StartScenario());
      showOutcome := false;
      lastOutcome := None;
    }

    /** `handleUpgrade`: only the premium plan switches premium on. */
    method Upgrade(plan: string)
      modifies this
      ensures isPremium == (old(isPremium) || plan == "premium")
      ensures progress == old(progress) && currentScenario == old(currentScenario)
      ensures showOutcome == old(showOutcome) && lastOutcome == old(lastOutcome) && error == old(error)
      ensures dailyLessonsCompleted == old(dailyLessonsCompleted)
    {
      if plan == "premium" {
        isPremium := true;
      }
    }

    /** `handleLessonComplete`: count the lesson and add the reward to the record. */
    method HandleLessonComplete(lessonId: string)
      modifies this
      ensures dailyLessonsCompleted == old(dailyLessonsCompleted) + 1
      ensures old(progress).Some? ==> progress == Some(WithLessonBonus(old(progress).value))
      ensures old(progress).None? ==> progress == None
      ensures currentScenario == old(currentScenario) && isPremium == old(isPremium)
      ensures showOutcome == old(showOutcome) && lastOutcome == old(lastOutcome) && error == old(error)
    {
      dailyLessonsCompleted := dailyLessonsCompleted + 1;
      if progress.Some? {
        progress := Some(WithLessonBonus(progress.value));
      }
    }
  }
}
