/**
 * The scenario catalog: five static scenarios, lookup by id and the
 * random pick used when the player moves on to the next scenario.
 */
module Scenarios {
  import opened Wrappers
  import opened Draws

  datatype Category = Housing | Food | Transportation | Emergency | Investment
  datatype Difficulty = Easy | Medium | Hard

  /** One answer the player can pick; the engine reads only its text. */
  datatype Choice = Choice(id: string, text: string)

  datatype Scenario = Scenario(
    id: string,
    title: string,
    choices: seq<Choice>,
    category: Category,
    difficulty: Difficulty)

  const RentIncrease := Scenario("rent_increase", "Rent Shock!",
    [ Choice("negotiate", "Negotiate with the landlord"),
      Choice("move", "Look for a new apartment"),
      Choice("accept", "Accept the increase and tighten budget"),
      Choice("roommate", "Find a roommate to share costs") ],
    Housing, Medium)

  const CarRepair := Scenario("car_repair", "Car Trouble",
    [ Choice("repair", "Pay for the repairs"),
      Choice("public_transport", "Use public transportation temporarily"),
      Choice("used_car", "Buy a used car instead"),
      Choice("carpool", "Organize carpools with coworkers") ],
    Transportation, Hard)

  const JobPromotion := Scenario("job_promotion", "Promotion Opportunity",
    [ Choice("accept", "Accept the promotion and move"),
      Choice("negotiate", "Try to negotiate remote work"),
      Choice("decline", "Decline and stay in current position"),
      Choice("research", "Research the new city thoroughly first") ],
    Investment, Medium)

  const Windfall := Scenario("windfall", "Unexpected Money",
    [ Choice("emergency_fund", "Build emergency fund"),
      Choice("pay_debt", "Pay off credit card debt"),
      Choice("invest", "Invest in index funds"),
      Choice("split", "Split between debt, savings, and fun") ],
    Investment, Easy)

  const MedicalEmergency := Scenario("medical_emergency", "Medical Emergency",
    [ Choice("payment_plan", "Accept hospital payment plan"),
      Choice("personal_loan", "Take out a personal loan"),
      Choice("ask_family", "Ask family for help"),
      Choice("delay", "Delay the procedure to save money") ],
    Emergency, Hard)

  /** `scenarios`, in its declared order. */
  const Catalog: seq<Scenario> := [RentIncrease, CarRepair, JobPromotion, Windfall, MedicalEmergency]

  /** `catalog.find(s => s.id === id)`: the first entry with that id, if any. */
  function Find(catalog: seq<Scenario>, id: string): (r: Option<Scenario>)
    ensures r.None? <==> forall k :: 0 <= k < |catalog| ==> catalog[k].id != id
    ensures r.Some? ==> exists k :: 0 <= k < |catalog| && catalog[k] == r.value && r.value.id == id &&
                                    forall j :: 0 <= j < k ==> catalog[j].id != id
  {
    if catalog == [] then None
    else if catalog[0].id == id then Some(catalog[0])
    else
      var r := Find(catalog[1..], id);
      assert forall k :: 1 <= k < |catalog| ==> catalog[k] == catalog[1..][k - 1];
      r
  }

  /** `getScenarioById`. */
  function GetScenarioById(id: string): (r: Option<Scenario>)
    ensures r.Some? ==> r.value in Catalog && r.value.id == id
    ensures r.None? <==> forall s :: s in Catalog ==> s.id != id
  {
    Find(Catalog, id)
  }

  /** `catalog[Math.floor(r * catalog.length)]`; `undefined` when the catalog is empty. */
  function RandomPick(catalog: seq<Scenario>, r: Unit): (s: Option<Scenario>)
    ensures s.None? <==> catalog == []
    ensures s.Some? ==> s.value in catalog
  {
    if catalog == [] then None
    else
      ScaledDrawInRange(r, |catalog|);
      Some(catalog[(r * |catalog| as real).Floor])
  }

  /** `getRandomScenario`: never fails, because the catalog is not empty. */
  function GetRandomScenario(r: Unit): (s: Scenario)
    ensures s in Catalog
    ensures s == Catalog[(r * 5.0).Floor]
  {
    RandomPick(Catalog, r).value
  }

  /** The scenario ids are pairwise distinct. */
  lemma CatalogIdsDistinct()
    ensures forall i, j :: 0 <= i < j < |Catalog| ==> Catalog[i].id != Catalog[j].id
  {
  }

  /** Looking up the id of any catalog entry finds that entry. */
  lemma LookupFindsEntry(s: Scenario)
    requires s in Catalog
    ensures GetScenarioById(s.id) == Some(s)
  {
    CatalogIdsDistinct();
    var k :| 0 <= k < |Catalog| && Catalog[k] == s;
    var r := GetScenarioById(s.id);
    var m :| 0 <= m < |Catalog| && Catalog[m] == r.value && r.value.id == s.id &&
             forall j :: 0 <= j < m ==> Catalog[j].id != s.id;
    assert m == k;
  }

  /** The starting id used by a fresh and by a reset game names the first entry. */
  lemma StartIdIsFirst()
    ensures Catalog[0].id == "rent_increase"
    ensures GetScenarioById("rent_increase") == Some(Catalog[0])
  {
    LookupFindsEntry(Catalog[0]);
  }

  /** Every scenario offers exactly four choices, with ids distinct within it. */
  lemma FourDistinctChoices(s: Scenario)
    requires s in Catalog
    ensures |s.choices| == 4
    ensures forall i, j :: 0 <= i < j < 4 ==> s.choices[i].id != s.choices[j].id
  {
  }
}
