/**
 * Where the catalog's own choices land in the engine: the intent each of
 * the twenty choices expresses under its scenario's title.
 *
 * Each entry rests on facts about the lower-cased texts. A keyword is found
 * by cutting the text around it; it is ruled out by a letter, or a pair of
 * adjacent letters, that the text lacks. Facts about one literal text are
 * kept in lemmas of their own, so that each proof stays small.
 */
module CatalogRouting {
  import opened Text
  import opened Dispatch
  import Scenarios

  /** The intent the engine reads in choice `k` of scenario `sc`. */
  function Route(sc: Scenarios.Scenario, k: nat): Intent
    requires k < |sc.choices|
  {
    Classify(Lower(sc.choices[k].text), Lower(sc.title))
  }

  // ------------------------------------------------- facts about the texts

  lemma CarTroubleTitleLacks(s: string)
    requires s == "Car Trouble"
    ensures LacksLetters(s, "n")
  {
    assert forall k :: 0 <= k < |s| ==> LowerChar(s[k]) !in "n";
  }
  lemma PromotionTitleLacks(s: string)
    requires s == "Promotion Opportunity"
    ensures LacksLetters(s, "eacwb")
  {
    assert forall k :: 0 <= k < |s| ==> LowerChar(s[k]) !in "eacwb";
  }
  lemma WindfallTitleLacks(s: string)
    requires s == "Unexpected Money"
    ensures LacksLetters(s, "rjwbi")
  {
    assert forall k :: 0 <= k < |s| ==> LowerChar(s[k]) !in "rjwbi";
  }
  lemma MedicalTitleLacks(s: string)
    requires s == "Medical Emergency"
    ensures LacksLetters(s, "tpjwb")
  {
    assert forall k :: 0 <= k < |s| ==> LowerChar(s[k]) !in "tpjwb";
  }
  lemma MedicalTitleLacksPairRe(s: string)
    requires s == "Medical Emergency"
    ensures LacksPair(s, 'r', 'e')
  {
    assert forall k :: 0 <= k < |s| - 1 ==> !(LowerChar(s[k]) == 'r' && LowerChar(s[k + 1]) == 'e');
  }
  lemma MedicalTitleLacksPairAr(s: string)
    requires s == "Medical Emergency"
    ensures LacksPair(s, 'a', 'r')
  {
    assert forall k :: 0 <= k < |s| - 1 ==> !(LowerChar(s[k]) == 'a' && LowerChar(s[k + 1]) == 'r');
  }
  lemma ApartmentLacks(s: string)
    requires s == "Look for a new apartment"
    ensures LacksLetters(s, "gv")
  {
    assert forall k :: 0 <= k < |s| ==> LowerChar(s[k]) !in "gv";
  }
  lemma TightenLacks(s: string)
    requires s == "Accept the increase and tighten budget"
    ensures LacksLetters(s, "m")
  {
    assert forall k :: 0 <= k < |s| ==> LowerChar(s[k]) !in "m";
  }
  lemma TightenLacksPairNe(s: string)
    requires s == "Accept the increase and tighten budget"
    ensures LacksPair(s, 'n', 'e')
  {
    assert forall k :: 0 <= k < |s| - 1 ==> !(LowerChar(s[k]) == 'n' && LowerChar(s[k + 1]) == 'e');
  }
  lemma RoommateLacks(s: string)
    requires s == "Find a roommate to share costs"
    ensures LacksLetters(s, "gvp")
  {
    assert forall k :: 0 <= k < |s| ==> LowerChar(s[k]) !in "gvp";
  }
  lemma RepairsLacks(s: string)
    requires s == "Pay for the repairs"
    ensures LacksLetters(s, "n")
  {
    assert forall k :: 0 <= k < |s| ==> LowerChar(s[k]) !in "n";
  }
  lemma PublicTransportLacks(s: string)
    requires s == "Use public transportation temporarily"
    ensures LacksLetters(s, "f")
  {
    assert forall k :: 0 <= k < |s| ==> LowerChar(s[k]) !in "f";
  }
  lemma PublicTransportLacksPairRe(s: string)
    requires s == "Use public transportation temporarily"
    ensures LacksPair(s, 'r', 'e')
  {
    assert forall k :: 0 <= k < |s| - 1 ==> !(LowerChar(s[k]) == 'r' && LowerChar(s[k + 1]) == 'e');
  }
  lemma PublicTransportLacksPairMa(s: string)
    requires s == "Use public transportation temporarily"
    ensures LacksPair(s, 'm', 'a')
  {
    assert forall k :: 0 <= k < |s| - 1 ==> !(LowerChar(s[k]) == 'm' && LowerChar(s[k + 1]) == 'a');
  }
  lemma UsedCarLacks(s: string)
    requires s == "Buy a used car instead"
    ensures LacksLetters(s, "fmp")
  {
    assert forall k :: 0 <= k < |s| ==> LowerChar(s[k]) !in "fmp";
  }
  lemma UsedCarLacksPairRe(s: string)
    requires s == "Buy a used car instead"
    ensures LacksPair(s, 'r', 'e')
  {
    assert forall k :: 0 <= k < |s| - 1 ==> !(LowerChar(s[k]) == 'r' && LowerChar(s[k + 1]) == 'e');
  }
  lemma CarpoolsLacks(s: string)
    requires s == "Organize carpools with coworkers"
    ensures LacksLetters(s, "fmbd")
  {
    assert forall k :: 0 <= k < |s| ==> LowerChar(s[k]) !in "fmbd";
  }
  lemma CarpoolsLacksPairRe(s: string)
    requires s == "Organize carpools with coworkers"
    ensures LacksPair(s, 'r', 'e')
  {
    assert forall k :: 0 <= k < |s| - 1 ==> !(LowerChar(s[k]) == 'r' && LowerChar(s[k + 1]) == 'e');
  }
  lemma AcceptMoveLacksPairRe(s: string)
    requires s == "Accept the promotion and move"
    ensures LacksPair(s, 'r', 'e')
  {
    assert forall k :: 0 <= k < |s| - 1 ==> !(LowerChar(s[k]) == 'r' && LowerChar(s[k + 1]) == 'e');
  }
  lemma AcceptMoveLacksPairCa(s: string)
    requires s == "Accept the promotion and move"
    ensures LacksPair(s, 'c', 'a')
  {
    assert forall k :: 0 <= k < |s| - 1 ==> !(LowerChar(s[k]) == 'c' && LowerChar(s[k + 1]) == 'a');
  }
  lemma RemoteWorkLacks(s: string)
    requires s == "Try to negotiate remote work"
    ensures LacksLetters(s, "c")
  {
    assert forall k :: 0 <= k < |s| ==> LowerChar(s[k]) !in "c";
  }
  lemma RemoteWorkLacksPairEn(s: string)
    requires s == "Try to negotiate remote work"
    ensures LacksPair(s, 'e', 'n')
  {
    assert forall k :: 0 <= k < |s| - 1 ==> !(LowerChar(s[k]) == 'e' && LowerChar(s[k + 1]) == 'n');
  }
  lemma DeclineLacks(s: string)
    requires s == "Decline and stay in current position"
    ensures LacksLetters(s, "gmh2")
  {
    assert forall k :: 0 <= k < |s| ==> LowerChar(s[k]) !in "gmh2";
  }
  lemma DeclineLacksPairAc(s: string)
    requires s == "Decline and stay in current position"
    ensures LacksPair(s, 'a', 'c')
  {
    assert forall k :: 0 <= k < |s| - 1 ==> !(LowerChar(s[k]) == 'a' && LowerChar(s[k + 1]) == 'c');
  }
  lemma DeclineLacksPairCa(s: string)
    requires s == "Decline and stay in current position"
    ensures LacksPair(s, 'c', 'a')
  {
    assert forall k :: 0 <= k < |s| - 1 ==> !(LowerChar(s[k]) == 'c' && LowerChar(s[k + 1]) == 'a');
  }
  lemma ResearchLacks(s: string)
    requires s == "Research the new city thoroughly first"
    ensures LacksLetters(s, "m2p")
  {
    assert forall k :: 0 <= k < |s| ==> LowerChar(s[k]) !in "m2p";
  }
  lemma ResearchLacksPairEn(s: string)
    requires s == "Research the new city thoroughly first"
    ensures LacksPair(s, 'e', 'n')
  {
    assert forall k :: 0 <= k < |s| - 1 ==> !(LowerChar(s[k]) == 'e' && LowerChar(s[k + 1]) == 'n');
  }
  lemma ResearchLacksPairCa(s: string)
    requires s == "Research the new city thoroughly first"
    ensures LacksPair(s, 'c', 'a')
  {
    assert forall k :: 0 <= k < |s| - 1 ==> !(LowerChar(s[k]) == 'c' && LowerChar(s[k + 1]) == 'a');
  }
  lemma ResearchLacksPairAc(s: string)
    requires s == "Research the new city thoroughly first"
    ensures LacksPair(s, 'a', 'c')
  {
    assert forall k :: 0 <= k < |s| - 1 ==> !(LowerChar(s[k]) == 'a' && LowerChar(s[k + 1]) == 'c');
  }
  lemma ResearchLacksPairEg(s: string)
    requires s == "Research the new city thoroughly first"
    ensures LacksPair(s, 'e', 'g')
  {
    assert forall k :: 0 <= k < |s| - 1 ==> !(LowerChar(s[k]) == 'e' && LowerChar(s[k + 1]) == 'g');
  }
  lemma EmergencyFundLacks(s: string)
    requires s == "Build emergency fund"
    ensures LacksLetters(s, "a2h")
  {
    assert forall k :: 0 <= k < |s| ==> LowerChar(s[k]) !in "a2h";
  }
  lemma EmergencyFundLacksPairRe(s: string)
    requires s == "Build emergency fund"
    ensures LacksPair(s, 'r', 'e')
  {
    assert forall k :: 0 <= k < |s| - 1 ==> !(LowerChar(s[k]) == 'r' && LowerChar(s[k + 1]) == 'e');
  }
  lemma CreditCardLacks(s: string)
    requires s == "Pay off credit card debt"
    ensures LacksLetters(s, "n2hxmul")
  {
    assert forall k :: 0 <= k < |s| ==> LowerChar(s[k]) !in "n2hxmul";
  }
  lemma CreditCardLacksPairEp(s: string)
    requires s == "Pay off credit card debt"
    ensures LacksPair(s, 'e', 'p')
  {
    assert forall k :: 0 <= k < |s| - 1 ==> !(LowerChar(s[k]) == 'e' && LowerChar(s[k + 1]) == 'p');
  }
  lemma IndexFundsLacks(s: string)
    requires s == "Invest in index funds"
    ensures LacksLetters(s, "rc2h")
  {
    assert forall k :: 0 <= k < |s| ==> LowerChar(s[k]) !in "rc2h";
  }
  lemma SplitLacks(s: string)
    requires s == "Split between debt, savings, and fun"
    ensures LacksLetters(s, "rc2h")
  {
    assert forall k :: 0 <= k < |s| ==> LowerChar(s[k]) !in "rc2h";
  }
  lemma PaymentPlanLacks(s: string)
    requires s == "Accept hospital payment plan"
    ensures LacksLetters(s, "r2f")
  {
    assert forall k :: 0 <= k < |s| ==> LowerChar(s[k]) !in "r2f";
  }
  lemma PersonalLoanLacks(s: string)
    requires s == "Take out a personal loan"
    ensures LacksLetters(s, "c2fiyh")
  {
    assert forall k :: 0 <= k < |s| ==> LowerChar(s[k]) !in "c2fiyh";
  }
  lemma PersonalLoanLacksPairRe(s: string)
    requires s == "Take out a personal loan"
    ensures LacksPair(s, 'r', 'e')
  {
    assert forall k :: 0 <= k < |s| - 1 ==> !(LowerChar(s[k]) == 'r' && LowerChar(s[k + 1]) == 'e');
  }
  lemma AskFamilyLacks(s: string)
    requires s == "Ask family for help"
    ensures LacksLetters(s, "c2nt")
  {
    assert forall k :: 0 <= k < |s| ==> LowerChar(s[k]) !in "c2nt";
  }
  lemma AskFamilyLacksPairRe(s: string)
    requires s == "Ask family for help"
    ensures LacksPair(s, 'r', 'e')
  {
    assert forall k :: 0 <= k < |s| - 1 ==> !(LowerChar(s[k]) == 'r' && LowerChar(s[k + 1]) == 'e');
  }
  lemma DelayLacks(s: string)
    requires s == "Delay the procedure to save money"
    ensures LacksLetters(s, "2fib")
  {
    assert forall k :: 0 <= k < |s| ==> LowerChar(s[k]) !in "2fib";
  }
  lemma DelayLacksPairEn(s: string)
    requires s == "Delay the procedure to save money"
    ensures LacksPair(s, 'e', 'n')
  {
    assert forall k :: 0 <= k < |s| - 1 ==> !(LowerChar(s[k]) == 'e' && LowerChar(s[k + 1]) == 'n');
  }
  lemma DelayLacksPairCa(s: string)
    requires s == "Delay the procedure to save money"
    ensures LacksPair(s, 'c', 'a')
  {
    assert forall k :: 0 <= k < |s| - 1 ==> !(LowerChar(s[k]) == 'c' && LowerChar(s[k + 1]) == 'a');
  }
  lemma DelayLacksPairPa(s: string)
    requires s == "Delay the procedure to save money"
    ensures LacksPair(s, 'p', 'a')
  {
    assert forall k :: 0 <= k < |s| - 1 ==> !(LowerChar(s[k]) == 'p' && LowerChar(s[k + 1]) == 'a');
  }
  // ------------------------------------------------------ keywords ruled out

  /** The keywords that the title of `CarRepair` and choice 0 of `CarRepair` do not contain. */
  lemma CarTroubleTitleMisses(s: string)
    requires LacksLetters(s, "n")
    ensures !Contains(Lower(s), "rent")
  {
    MissingLetter(s, "n", "rent", 2);
  }

  /** The keywords that the title of `JobPromotion` does not contain. */
  lemma PromotionTitleMisses(s: string)
    requires LacksLetters(s, "eacwb")
    ensures !Contains(Lower(s), "rent")
    ensures !Contains(Lower(s), "transport")
    ensures !Contains(Lower(s), "car")
    ensures !Contains(Lower(s), "windfall")
    ensures !Contains(Lower(s), "bonus")
    ensures !Contains(Lower(s), "medical")
  {
    MissingLetter(s, "eacwb", "rent", 1);
    MissingLetter(s, "eacwb", "transport", 2);
    MissingLetter(s, "eacwb", "car", 0);
    MissingLetter(s, "eacwb", "windfall", 0);
    MissingLetter(s, "eacwb", "bonus", 0);
    MissingLetter(s, "eacwb", "medical", 1);
  }

  /** The keywords that the title of `Windfall` does not contain. */
  lemma WindfallTitleMisses(s: string)
    requires LacksLetters(s, "rjwbi")
    ensures !Contains(Lower(s), "rent")
    ensures !Contains(Lower(s), "transport")
    ensures !Contains(Lower(s), "car")
    ensures !Contains(Lower(s), "promotion")
    ensures !Contains(Lower(s), "job")
    ensures !Contains(Lower(s), "windfall")
    ensures !Contains(Lower(s), "bonus")
    ensures !Contains(Lower(s), "medical")
  {
    MissingLetter(s, "rjwbi", "rent", 0);
    MissingLetter(s, "rjwbi", "transport", 1);
    MissingLetter(s, "rjwbi", "car", 2);
    MissingLetter(s, "rjwbi", "promotion", 1);
    MissingLetter(s, "rjwbi", "job", 0);
    MissingLetter(s, "rjwbi", "windfall", 0);
    MissingLetter(s, "rjwbi", "bonus", 0);
    MissingLetter(s, "rjwbi", "medical", 3);
  }

  /** The keywords that the title of `MedicalEmergency` does not contain. */
  lemma MedicalTitleMisses(s: string)
    requires LacksLetters(s, "tpjwb")
    requires LacksPair(s, 'r', 'e')
    requires LacksPair(s, 'a', 'r')
    ensures !Contains(Lower(s), "rent")
    ensures !Contains(Lower(s), "transport")
    ensures !Contains(Lower(s), "car")
    ensures !Contains(Lower(s), "promotion")
    ensures !Contains(Lower(s), "job")
    ensures !Contains(Lower(s), "windfall")
    ensures !Contains(Lower(s), "bonus")
  {
    MissingLetter(s, "tpjwb", "rent", 3);
    MissingLetter(s, "tpjwb", "transport", 0);
    MissingPair(s, 'a', 'r', "car", 1);
    MissingLetter(s, "tpjwb", "promotion", 0);
    MissingLetter(s, "tpjwb", "job", 0);
    MissingLetter(s, "tpjwb", "windfall", 0);
    MissingLetter(s, "tpjwb", "bonus", 0);
  }

  /** The keywords that choice 1 of `RentIncrease` does not contain. */
  lemma ApartmentMisses(c: string)
    requires LacksLetters(c, "gv")
    ensures !Contains(Lower(c), "negotiate")
    ensures !Contains(Lower(c), "move")
  {
    MissingLetter(c, "gv", "negotiate", 2);
    MissingLetter(c, "gv", "move", 2);
  }

  /** The keywords that choice 2 of `RentIncrease` does not contain. */
  lemma TightenMisses(c: string)
    requires LacksLetters(c, "m")
    requires LacksPair(c, 'n', 'e')
    ensures !Contains(Lower(c), "negotiate")
    ensures !Contains(Lower(c), "move")
    ensures !Contains(Lower(c), "apartment")
  {
    MissingPair(c, 'n', 'e', "negotiate", 0);
    MissingLetter(c, "m", "move", 0);
    MissingLetter(c, "m", "apartment", 5);
  }

  /** The keywords that choice 3 of `RentIncrease` does not contain. */
  lemma RoommateMisses(c: string)
    requires LacksLetters(c, "gvp")
    ensures !Contains(Lower(c), "negotiate")
    ensures !Contains(Lower(c), "move")
    ensures !Contains(Lower(c), "apartment")
    ensures !Contains(Lower(c), "accept")
    ensures !Contains(Lower(c), "tighten")
  {
    MissingLetter(c, "gvp", "negotiate", 2);
    MissingLetter(c, "gvp", "move", 2);
    MissingLetter(c, "gvp", "apartment", 1);
    MissingLetter(c, "gvp", "accept", 4);
    MissingLetter(c, "gvp", "tighten", 2);
  }

  /** The keywords that choice 1 of `CarRepair` does not contain. */
  lemma PublicTransportMisses(c: string)
    requires LacksLetters(c, "f")
    requires LacksPair(c, 'r', 'e')
    requires LacksPair(c, 'm', 'a')
    ensures !Contains(Lower(c), "rent")
    ensures !Contains(Lower(c), "repair")
    ensures !Contains(Lower(c), "fix")
    ensures !Contains(Lower(c), "matatu")
  {
    MissingPair(c, 'r', 'e', "rent", 0);
    MissingPair(c, 'r', 'e', "repair", 0);
    MissingLetter(c, "f", "fix", 0);
    MissingPair(c, 'm', 'a', "matatu", 0);
  }

  /** The keywords that choice 2 of `CarRepair` does not contain. */
  lemma UsedCarMisses(c: string)
    requires LacksLetters(c, "fmp")
    requires LacksPair(c, 'r', 'e')
    ensures !Contains(Lower(c), "rent")
    ensures !Contains(Lower(c), "repair")
    ensures !Contains(Lower(c), "fix")
    ensures !Contains(Lower(c), "matatu")
    ensures !Contains(Lower(c), "public")
  {
    MissingPair(c, 'r', 'e', "rent", 0);
    MissingLetter(c, "fmp", "repair", 2);
    MissingLetter(c, "fmp", "fix", 0);
    MissingLetter(c, "fmp", "matatu", 0);
    MissingLetter(c, "fmp", "public", 0);
  }

  /** The keywords that choice 3 of `CarRepair` does not contain. */
  lemma CarpoolsMisses(c: string)
    requires LacksLetters(c, "fmbd")
    requires LacksPair(c, 'r', 'e')
    ensures !Contains(Lower(c), "rent")
    ensures !Contains(Lower(c), "repair")
    ensures !Contains(Lower(c), "fix")
    ensures !Contains(Lower(c), "matatu")
    ensures !Contains(Lower(c), "public")
    ensures !Contains(Lower(c), "used")
    ensures !Contains(Lower(c), "buy")
  {
    MissingPair(c, 'r', 'e', "rent", 0);
    MissingPair(c, 'r', 'e', "repair", 0);
    MissingLetter(c, "fmbd", "fix", 0);
    MissingLetter(c, "fmbd", "matatu", 0);
    MissingLetter(c, "fmbd", "public", 2);
    MissingLetter(c, "fmbd", "used", 3);
    MissingLetter(c, "fmbd", "buy", 0);
  }

  /** The keywords that choice 0 of `JobPromotion` does not contain. */
  lemma AcceptMoveMisses(c: string)
    requires LacksPair(c, 'r', 'e')
    requires LacksPair(c, 'c', 'a')
    ensures !Contains(Lower(c), "rent")
    ensures !Contains(Lower(c), "car")
  {
    MissingPair(c, 'r', 'e', "rent", 0);
    MissingPair(c, 'c', 'a', "car", 0);
  }

  /** The keywords that choice 1 of `JobPromotion` does not contain. */
  lemma RemoteWorkMisses(c: string)
    requires LacksLetters(c, "c")
    requires LacksPair(c, 'e', 'n')
    ensures !Contains(Lower(c), "rent")
    ensures !Contains(Lower(c), "car")
    ensures !Contains(Lower(c), "accept")
  {
    MissingPair(c, 'e', 'n', "rent", 1);
    MissingLetter(c, "c", "car", 0);
    MissingLetter(c, "c", "accept", 1);
  }

  /** The keywords that choice 2 of `JobPromotion` does not contain. */
  lemma DeclineMisses(c: string)
    requires LacksLetters(c, "gmh2")
    requires LacksPair(c, 'a', 'c')
    requires LacksPair(c, 'c', 'a')
    ensures !Contains(Lower(c), "negotiate")
    ensures !Contains(Lower(c), "move")
    ensures !Contains(Lower(c), "apartment")
    ensures !Contains(Lower(c), "accept")
    ensures !Contains(Lower(c), "tighten")
    ensures !Contains(Lower(c), "roommate")
    ensures !Contains(Lower(c), "share")
    ensures !Contains(Lower(c), "car")
    ensures !Contains(Lower(c), "remote")
    ensures !Contains(Lower(c), "250000")
    ensures !Contains(Lower(c), "hospital")
  {
    MissingLetter(c, "gmh2", "negotiate", 2);
    MissingLetter(c, "gmh2", "move", 0);
    MissingLetter(c, "gmh2", "apartment", 5);
    MissingPair(c, 'a', 'c', "accept", 0);
    MissingLetter(c, "gmh2", "tighten", 2);
    MissingLetter(c, "gmh2", "roommate", 3);
    MissingLetter(c, "gmh2", "share", 1);
    MissingPair(c, 'c', 'a', "car", 0);
    MissingLetter(c, "gmh2", "remote", 2);
    MissingLetter(c, "gmh2", "250000", 0);
    MissingLetter(c, "gmh2", "hospital", 0);
  }

  /** The keywords that choice 3 of `JobPromotion` does not contain. */
  lemma ResearchMisses(c: string)
    requires LacksLetters(c, "m2p")
    requires LacksPair(c, 'e', 'n')
    requires LacksPair(c, 'c', 'a')
    requires LacksPair(c, 'a', 'c')
    requires LacksPair(c, 'e', 'g')
    ensures !Contains(Lower(c), "rent")
    ensures !Contains(Lower(c), "car")
    ensures !Contains(Lower(c), "accept")
    ensures !Contains(Lower(c), "negotiate")
    ensures !Contains(Lower(c), "remote")
    ensures !Contains(Lower(c), "250000")
    ensures !Contains(Lower(c), "hospital")
  {
    MissingPair(c, 'e', 'n', "rent", 1);
    MissingPair(c, 'c', 'a', "car", 0);
    MissingLetter(c, "m2p", "accept", 4);
    MissingPair(c, 'e', 'g', "negotiate", 1);
    MissingLetter(c, "m2p", "remote", 2);
    MissingLetter(c, "m2p", "250000", 0);
    MissingLetter(c, "m2p", "hospital", 3);
  }

  /** The keywords that choice 0 of `Windfall` does not contain. */
  lemma EmergencyFundMisses(c: string)
    requires LacksLetters(c, "a2h")
    requires LacksPair(c, 'r', 'e')
    ensures !Contains(Lower(c), "rent")
    ensures !Contains(Lower(c), "car")
    ensures !Contains(Lower(c), "250000")
    ensures !Contains(Lower(c), "hospital")
  {
    MissingPair(c, 'r', 'e', "rent", 0);
    MissingLetter(c, "a2h", "car", 1);
    MissingLetter(c, "a2h", "250000", 0);
    MissingLetter(c, "a2h", "hospital", 0);
  }

  /** The keywords that choice 1 of `Windfall` does not contain. */
  lemma CreditCardMisses(c: string)
    requires LacksLetters(c, "n2hxmul")
    requires LacksPair(c, 'e', 'p')
    ensures !Contains(Lower(c), "rent")
    ensures !Contains(Lower(c), "250000")
    ensures !Contains(Lower(c), "hospital")
    ensures !Contains(Lower(c), "repair")
    ensures !Contains(Lower(c), "fix")
    ensures !Contains(Lower(c), "matatu")
    ensures !Contains(Lower(c), "public")
    ensures !Contains(Lower(c), "used")
    ensures !Contains(Lower(c), "buy")
    ensures !Contains(Lower(c), "carpool")
    ensures !Contains(Lower(c), "colleagues")
  {
    MissingLetter(c, "n2hxmul", "rent", 2);
    MissingLetter(c, "n2hxmul", "250000", 0);
    MissingLetter(c, "n2hxmul", "hospital", 0);
    MissingPair(c, 'e', 'p', "repair", 1);
    MissingLetter(c, "n2hxmul", "fix", 2);
    MissingLetter(c, "n2hxmul", "matatu", 0);
    MissingLetter(c, "n2hxmul", "public", 1);
    MissingLetter(c, "n2hxmul", "used", 0);
    MissingLetter(c, "n2hxmul", "buy", 1);
    MissingLetter(c, "n2hxmul", "carpool", 6);
    MissingLetter(c, "n2hxmul", "colleagues", 2);
  }

  /** The keywords that choice 2 of `Windfall` and choice 3 of `Windfall` do not contain. */
  lemma IndexFundsMisses(c: string)
    requires LacksLetters(c, "rc2h")
    ensures !Contains(Lower(c), "rent")
    ensures !Contains(Lower(c), "car")
    ensures !Contains(Lower(c), "250000")
    ensures !Contains(Lower(c), "hospital")
  {
    MissingLetter(c, "rc2h", "rent", 0);
    MissingLetter(c, "rc2h", "car", 0);
    MissingLetter(c, "rc2h", "250000", 0);
    MissingLetter(c, "rc2h", "hospital", 0);
  }

  /** The keywords that choice 0 of `MedicalEmergency` does not contain. */
  lemma PaymentPlanMisses(c: string)
    requires LacksLetters(c, "r2f")
    ensures !Contains(Lower(c), "rent")
    ensures !Contains(Lower(c), "car")
    ensures !Contains(Lower(c), "250000")
    ensures !Contains(Lower(c), "nhif")
    ensures !Contains(Lower(c), "insurance")
  {
    MissingLetter(c, "r2f", "rent", 0);
    MissingLetter(c, "r2f", "car", 2);
    MissingLetter(c, "r2f", "250000", 0);
    MissingLetter(c, "r2f", "nhif", 3);
    MissingLetter(c, "r2f", "insurance", 4);
  }

  /** The keywords that choice 1 of `MedicalEmergency` does not contain. */
  lemma PersonalLoanMisses(c: string)
    requires LacksLetters(c, "c2fiyh")
    requires LacksPair(c, 'r', 'e')
    ensures !Contains(Lower(c), "rent")
    ensures !Contains(Lower(c), "car")
    ensures !Contains(Lower(c), "250000")
    ensures !Contains(Lower(c), "nhif")
    ensures !Contains(Lower(c), "insurance")
    ensures !Contains(Lower(c), "payment plan")
    ensures !Contains(Lower(c), "hospital")
    ensures !Contains(Lower(c), "family")
    ensures !Contains(Lower(c), "harambee")
  {
    MissingPair(c, 'r', 'e', "rent", 0);
    MissingLetter(c, "c2fiyh", "car", 0);
    MissingLetter(c, "c2fiyh", "250000", 0);
    MissingLetter(c, "c2fiyh", "nhif", 1);
    MissingLetter(c, "c2fiyh", "insurance", 0);
    MissingLetter(c, "c2fiyh", "payment plan", 2);
    MissingLetter(c, "c2fiyh", "hospital", 0);
    MissingLetter(c, "c2fiyh", "family", 0);
    MissingLetter(c, "c2fiyh", "harambee", 0);
  }

  /** The keywords that choice 2 of `MedicalEmergency` does not contain. */
  lemma AskFamilyMisses(c: string)
    requires LacksLetters(c, "c2nt")
    requires LacksPair(c, 'r', 'e')
    ensures !Contains(Lower(c), "rent")
    ensures !Contains(Lower(c), "car")
    ensures !Contains(Lower(c), "250000")
    ensures !Contains(Lower(c), "nhif")
    ensures !Contains(Lower(c), "insurance")
    ensures !Contains(Lower(c), "payment plan")
    ensures !Contains(Lower(c), "hospital")
  {
    MissingLetter(c, "c2nt", "rent", 2);
    MissingLetter(c, "c2nt", "car", 0);
    MissingLetter(c, "c2nt", "250000", 0);
    MissingLetter(c, "c2nt", "nhif", 0);
    MissingLetter(c, "c2nt", "insurance", 1);
    MissingLetter(c, "c2nt", "payment plan", 5);
    MissingLetter(c, "c2nt", "hospital", 5);
  }

  /** The keywords that choice 3 of `MedicalEmergency` does not contain. */
  lemma DelayMisses(c: string)
    requires LacksLetters(c, "2fib")
    requires LacksPair(c, 'e', 'n')
    requires LacksPair(c, 'c', 'a')
    requires LacksPair(c, 'p', 'a')
    ensures !Contains(Lower(c), "rent")
    ensures !Contains(Lower(c), "car")
    ensures !Contains(Lower(c), "250000")
    ensures !Contains(Lower(c), "nhif")
    ensures !Contains(Lower(c), "insurance")
    ensures !Contains(Lower(c), "payment plan")
    ensures !Contains(Lower(c), "hospital")
    ensures !Contains(Lower(c), "family")
    ensures !Contains(Lower(c), "harambee")
  {
    MissingPair(c, 'e', 'n', "rent", 1);
    MissingPair(c, 'c', 'a', "car", 0);
    MissingLetter(c, "2fib", "250000", 0);
    MissingLetter(c, "2fib", "nhif", 2);
    MissingLetter(c, "2fib", "insurance", 0);
    MissingPair(c, 'p', 'a', "payment plan", 0);
    MissingLetter(c, "2fib", "hospital", 4);
    MissingLetter(c, "2fib", "family", 0);
    MissingLetter(c, "2fib", "harambee", 5);
  }

  // ---------------------------------------------------------------- routes

  lemma RouteLandlord()
    ensures Route(Scenarios.RentIncrease, 0) == RentNegotiate
  {
    var c, s := Scenarios.RentIncrease.choices[0].text, Scenarios.RentIncrease.title;
    FoundLower(c, "", "Negotiate", c[9..], "negotiate");
    FoundLower(s, "", "Rent", s[4..], "rent");
  }

  lemma RouteApartment()
    ensures Route(Scenarios.RentIncrease, 1) == RentMove
  {
    var c, s := Scenarios.RentIncrease.choices[1].text, Scenarios.RentIncrease.title;
    ApartmentLacks(c);
    FoundLower(c, c[..15], "apartment", c[24..], "apartment");
    ApartmentMisses(c);
    FoundLower(s, "", "Rent", s[4..], "rent");
  }

  lemma RouteTighten()
    ensures Route(Scenarios.RentIncrease, 2) == RentAccept
  {
    var c, s := Scenarios.RentIncrease.choices[2].text, Scenarios.RentIncrease.title;
    TightenLacks(c);
    TightenLacksPairNe(c);
    FoundLower(c, "", "Accept", c[6..], "accept");
    TightenMisses(c);
    FoundLower(s, "", "Rent", s[4..], "rent");
  }

  lemma RouteRoommate()
    ensures Route(Scenarios.RentIncrease, 3) == RentRoommate
  {
    var c, s := Scenarios.RentIncrease.choices[3].text, Scenarios.RentIncrease.title;
    RoommateLacks(c);
    FoundLower(c, c[..7], "roommate", c[15..], "roommate");
    RoommateMisses(c);
    FoundLower(s, "", "Rent", s[4..], "rent");
  }

  lemma RouteRepairs()
    ensures Route(Scenarios.CarRepair, 0) == CarRepair
  {
    var c, s := Scenarios.CarRepair.choices[0].text, Scenarios.CarRepair.title;
    RepairsLacks(c);
    FoundLower(c, c[..12], "repair", c[18..], "repair");
    CarTroubleTitleMisses(c);
    CarTroubleTitleLacks(s);
    FoundLower(s, "", "Car", s[3..], "car");
    CarTroubleTitleMisses(s);
  }

  lemma RoutePublicTransport()
    ensures Route(Scenarios.CarRepair, 1) == CarPublic
  {
    var c, s := Scenarios.CarRepair.choices[1].text, Scenarios.CarRepair.title;
    PublicTransportLacks(c);
    PublicTransportLacksPairRe(c);
    PublicTransportLacksPairMa(c);
    FoundLower(c, c[..4], "public", c[10..], "public");
    PublicTransportMisses(c);
    CarTroubleTitleLacks(s);
    FoundLower(s, "", "Car", s[3..], "car");
    CarTroubleTitleMisses(s);
  }

  lemma RouteUsedCar()
    ensures Route(Scenarios.CarRepair, 2) == CarUsed
  {
    var c, s := Scenarios.CarRepair.choices[2].text, Scenarios.CarRepair.title;
    UsedCarLacks(c);
    UsedCarLacksPairRe(c);
    FoundLower(c, c[..6], "used", c[10..], "used");
    UsedCarMisses(c);
    CarTroubleTitleLacks(s);
    FoundLower(s, "", "Car", s[3..], "car");
    CarTroubleTitleMisses(s);
  }

  lemma RouteCarpools()
    ensures Route(Scenarios.CarRepair, 3) == CarCarpool
  {
    var c, s := Scenarios.CarRepair.choices[3].text, Scenarios.CarRepair.title;
    CarpoolsLacks(c);
    CarpoolsLacksPairRe(c);
    FoundLower(c, c[..9], "carpool", c[16..], "carpool");
    CarpoolsMisses(c);
    CarTroubleTitleLacks(s);
    FoundLower(s, "", "Car", s[3..], "car");
    CarTroubleTitleMisses(s);
  }

  lemma RouteAcceptMove()
    ensures Route(Scenarios.JobPromotion, 0) == JobRelocate
  {
    var c, s := Scenarios.JobPromotion.choices[0].text, Scenarios.JobPromotion.title;
    AcceptMoveLacksPairRe(c);
    AcceptMoveLacksPairCa(c);
    FoundLower(c, "", "Accept", c[6..], "accept");
    FoundLower(c, c[..25], "move", c[29..], "move");
    AcceptMoveMisses(c);
    PromotionTitleLacks(s);
    FoundLower(s, "", "Promotion", s[9..], "promotion");
    PromotionTitleMisses(s);
  }

  lemma RouteRemoteWork()
    ensures Route(Scenarios.JobPromotion, 1) == JobRemote
  {
    var c, s := Scenarios.JobPromotion.choices[1].text, Scenarios.JobPromotion.title;
    RemoteWorkLacks(c);
    RemoteWorkLacksPairEn(c);
    FoundLower(c, c[..7], "negotiate", c[16..], "negotiate");
    RemoteWorkMisses(c);
    PromotionTitleLacks(s);
    FoundLower(s, "", "Promotion", s[9..], "promotion");
    PromotionTitleMisses(s);
  }

  /** "current" contains "rent": the rent block is entered, recognises nothing, and the default pool decides. */
  lemma RouteDecline()
    ensures Route(Scenarios.JobPromotion, 2) == Unmatched
    ensures Entered(Rent, Lower(Scenarios.JobPromotion.choices[2].text), Lower(Scenarios.JobPromotion.title))
  {
    var c, s := Scenarios.JobPromotion.choices[2].text, Scenarios.JobPromotion.title;
    DeclineLacks(c);
    DeclineLacksPairAc(c);
    DeclineLacksPairCa(c);
    FoundLower(c, c[..23], "rent", c[27..], "rent");
    DeclineMisses(c);
    PromotionTitleLacks(s);
    FoundLower(s, "", "Promotion", s[9..], "promotion");
    PromotionTitleMisses(s);
  }

  lemma RouteResearch()
    ensures Route(Scenarios.JobPromotion, 3) == Unmatched
  {
    var c, s := Scenarios.JobPromotion.choices[3].text, Scenarios.JobPromotion.title;
    ResearchLacks(c);
    ResearchLacksPairEn(c);
    ResearchLacksPairCa(c);
    ResearchLacksPairAc(c);
    ResearchLacksPairEg(c);
    ResearchMisses(c);
    PromotionTitleLacks(s);
    FoundLower(s, "", "Promotion", s[9..], "promotion");
    PromotionTitleMisses(s);
  }

  lemma RouteEmergencyFund()
    ensures Route(Scenarios.Windfall, 0) == Unmatched
  {
    var c, s := Scenarios.Windfall.choices[0].text, Scenarios.Windfall.title;
    EmergencyFundLacks(c);
    EmergencyFundLacksPairRe(c);
    EmergencyFundMisses(c);
    WindfallTitleLacks(s);
    WindfallTitleMisses(s);
  }

  /** "card" contains "car": the transport block is entered, recognises nothing, and the default pool decides. */
  lemma RouteCreditCard()
    ensures Route(Scenarios.Windfall, 1) == Unmatched
    ensures Entered(Transport, Lower(Scenarios.Windfall.choices[1].text), Lower(Scenarios.Windfall.title))
  {
    var c, s := Scenarios.Windfall.choices[1].text, Scenarios.Windfall.title;
    CreditCardLacks(c);
    CreditCardLacksPairEp(c);
    FoundLower(c, c[..15], "car", c[18..], "car");
    CreditCardMisses(c);
    WindfallTitleLacks(s);
    WindfallTitleMisses(s);
  }

  lemma RouteIndexFunds()
    ensures Route(Scenarios.Windfall, 2) == Unmatched
  {
    var c, s := Scenarios.Windfall.choices[2].text, Scenarios.Windfall.title;
    IndexFundsLacks(c);
    IndexFundsMisses(c);
    WindfallTitleLacks(s);
    WindfallTitleMisses(s);
  }

  lemma RouteSplit()
    ensures Route(Scenarios.Windfall, 3) == Unmatched
  {
    var c, s := Scenarios.Windfall.choices[3].text, Scenarios.Windfall.title;
    SplitLacks(c);
    IndexFundsMisses(c);
    WindfallTitleLacks(s);
    WindfallTitleMisses(s);
  }

  lemma RoutePaymentPlan()
    ensures Route(Scenarios.MedicalEmergency, 0) == MedPaymentPlan
  {
    var c, s := Scenarios.MedicalEmergency.choices[0].text, Scenarios.MedicalEmergency.title;
    PaymentPlanLacks(c);
    FoundLower(c, c[..16], "payment plan", c[28..], "payment plan");
    PaymentPlanMisses(c);
    MedicalTitleLacks(s);
    MedicalTitleLacksPairRe(s);
    MedicalTitleLacksPairAr(s);
    FoundLower(s, "", "Medical", s[7..], "medical");
    MedicalTitleMisses(s);
  }

  lemma RoutePersonalLoan()
    ensures Route(Scenarios.MedicalEmergency, 1) == Unmatched
  {
    var c, s := Scenarios.MedicalEmergency.choices[1].text, Scenarios.MedicalEmergency.title;
    PersonalLoanLacks(c);
    PersonalLoanLacksPairRe(c);
    PersonalLoanMisses(c);
    MedicalTitleLacks(s);
    MedicalTitleLacksPairRe(s);
    MedicalTitleLacksPairAr(s);
    FoundLower(s, "", "Medical", s[7..], "medical");
    MedicalTitleMisses(s);
  }

  lemma RouteAskFamily()
    ensures Route(Scenarios.MedicalEmergency, 2) == MedFamily
  {
    var c, s := Scenarios.MedicalEmergency.choices[2].text, Scenarios.MedicalEmergency.title;
    AskFamilyLacks(c);
    AskFamilyLacksPairRe(c);
    FoundLower(c, c[..4], "family", c[10..], "family");
    AskFamilyMisses(c);
    MedicalTitleLacks(s);
    MedicalTitleLacksPairRe(s);
    MedicalTitleLacksPairAr(s);
    FoundLower(s, "", "Medical", s[7..], "medical");
    MedicalTitleMisses(s);
  }

  lemma RouteDelay()
    ensures Route(Scenarios.MedicalEmergency, 3) == Unmatched
  {
    var c, s := Scenarios.MedicalEmergency.choices[3].text, Scenarios.MedicalEmergency.title;
    DelayLacks(c);
    DelayLacksPairEn(c);
    DelayLacksPairCa(c);
    DelayLacksPairPa(c);
    DelayMisses(c);
    MedicalTitleLacks(s);
    MedicalTitleLacksPairRe(s);
    MedicalTitleLacksPairAr(s);
    FoundLower(s, "", "Medical", s[7..], "medical");
    MedicalTitleMisses(s);
  }

  /** Every choice of the rent scenario keeps its housing meaning. */
  lemma RentShockRoutes()
    ensures Route(Scenarios.RentIncrease, 0) == RentNegotiate
    ensures Route(Scenarios.RentIncrease, 1) == RentMove
    ensures Route(Scenarios.RentIncrease, 2) == RentAccept
    ensures Route(Scenarios.RentIncrease, 3) == RentRoommate
  {
    RouteLandlord();
    RouteApartment();
    RouteTighten();
    RouteRoommate();
  }

  /** Every choice of the car scenario keeps its transport meaning. */
  lemma CarTroubleRoutes()
    ensures Route(Scenarios.CarRepair, 0) == CarRepair
    ensures Route(Scenarios.CarRepair, 1) == CarPublic
    ensures Route(Scenarios.CarRepair, 2) == CarUsed
    ensures Route(Scenarios.CarRepair, 3) == CarCarpool
  {
    RouteRepairs();
    RoutePublicTransport();
    RouteUsedCar();
    RouteCarpools();
  }

  /** The promotion scenario: relocation and remote work are recognised; declining and researching the city end in the default pool. */
  lemma PromotionRoutes()
    ensures Route(Scenarios.JobPromotion, 0) == JobRelocate
    ensures Route(Scenarios.JobPromotion, 1) == JobRemote
    ensures Route(Scenarios.JobPromotion, 2) == Unmatched
    ensures Route(Scenarios.JobPromotion, 3) == Unmatched
  {
    RouteAcceptMove();
    RouteRemoteWork();
    RouteDecline();
    RouteResearch();
  }

  /** No choice of the windfall scenario reaches a windfall rule: all four end in the default pool. */
  lemma WindfallRoutes()
    ensures Route(Scenarios.Windfall, 0) == Unmatched
    ensures Route(Scenarios.Windfall, 1) == Unmatched
    ensures Route(Scenarios.Windfall, 2) == Unmatched
    ensures Route(Scenarios.Windfall, 3) == Unmatched
  {
    RouteEmergencyFund();
    RouteCreditCard();
    RouteIndexFunds();
    RouteSplit();
  }

  /** The medical scenario: the payment plan and the harambee are recognised; a personal loan and a delay end in the default pool. */
  lemma MedicalRoutes()
    ensures Route(Scenarios.MedicalEmergency, 0) == MedPaymentPlan
    ensures Route(Scenarios.MedicalEmergency, 1) == Unmatched
    ensures Route(Scenarios.MedicalEmergency, 2) == MedFamily
    ensures Route(Scenarios.MedicalEmergency, 3) == Unmatched
  {
    RoutePaymentPlan();
    RoutePersonalLoan();
    RouteAskFamily();
    RouteDelay();
  }
}
