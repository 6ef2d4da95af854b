/**
 * Emergency mode: a table of four scenarios and a two-field state (whether the
 * mode is active, and which scenario was selected) driven by activation and
 * deactivation, with the rule that greys out the other scenarios' buttons.
 */
module Emergency {
  import opened Wrappers

  /** One entry of the scenario table. */
  datatype Scenario = Scenario(id: string, title: string, description: string, message: string, urgency: string)

  /** The variant a scenario's urgency badge is drawn with. */
  datatype BadgeVariant = Destructive | Default | Secondary

  /** The four scenarios, in display order. */
  const Scenarios: seq<Scenario> := [
    Scenario("medical", "Medical Emergency", "Sudden illness or medical situation",
      "I'm experiencing a medical emergency and need to leave immediately. I'll be in touch as soon as possible.",
      "critical"),
    Scenario("family", "Family Emergency", "Urgent family situation requiring immediate attention",
      "There's been a family emergency that requires my immediate attention. I need to leave right away and will update you when I can.",
      "high"),
    Scenario("transport", "Transportation Crisis", "Vehicle breakdown or transport failure",
      "I'm currently stranded due to a transportation emergency. I'm working on getting alternative transport and will keep you updated.",
      "medium"),
    Scenario("weather", "Weather Emergency", "Severe weather conditions preventing travel",
      "Due to severe weather conditions in my area, it's unsafe for me to travel. I'll monitor the situation and update you shortly.",
      "medium")]

  /** The ids of the scenario table. */
  predicate IsScenarioId(id: string) {
    id == "medical" || id == "family" || id == "transport" || id == "weather"
  }

  /** `emergencyScenarios.find(s => s.id === id)`: the first entry of `table` with that id. */
  function FindIn(table: seq<Scenario>, id: string): (r: Option<Scenario>)
    ensures r.Some? ==> r.value in table && r.value.id == id
    ensures r.None? ==> forall i :: 0 <= i < |table| ==> table[i].id != id
  {
    if table == [] then None
    else if table[0].id == id then Some(table[0])
    else FindIn(table[1..], id)
  }

  /** The scenario with id `id`, found exactly for the four ids of the table. */
  function FindScenario(id: string): (r: Option<Scenario>)
    ensures r.Some? <==> IsScenarioId(id)
    ensures r.Some? ==> r.value in Scenarios && r.value.id == id
  {
    var r := FindIn(Scenarios, id);
    assert IsScenarioId(id) ==> exists i :: 0 <= i < |Scenarios| && Scenarios[i].id == id by {
      if id == "medical" { assert Scenarios[0].id == id; }
      if id == "family" { assert Scenarios[1].id == id; }
      if id == "transport" { assert Scenarios[2].id == id; }
      if id == "weather" { assert Scenarios[3].id == id; }
    }
    r
  }

  /** The state invariant: active exactly when a scenario is selected, and then it is one of the table's. */
  predicate Consistent(isActivated: bool, selectedScenario: string) {
    (isActivated <==> selectedScenario != "") && (isActivated ==> IsScenarioId(selectedScenario))
  }

  /** In the expanded view, a scenario's button is disabled while another scenario is active. */
  function ButtonDisabled(isActivated: bool, selectedScenario: string, scenarioId: string): (disabled: bool)
    ensures disabled <==> isActivated && scenarioId != selectedScenario
    ensures scenarioId == selectedScenario ==> !disabled
  {
    isActivated && selectedScenario != scenarioId
  }

  /** How many of the table's buttons are disabled. */
  function DisabledCount(isActivated: bool, selectedScenario: string, table: seq<Scenario>): nat {
    if table == [] then 0
    else
      var here := if ButtonDisabled(isActivated, selectedScenario, table[0].id) then 1 else 0;
      here + DisabledCount(isActivated, selectedScenario, table[1..])
  }

  /** In a consistent state, all four buttons are enabled when inactive, and exactly three are disabled when active. */
  lemma DisabledButtons(isActivated: bool, selectedScenario: string)
    requires Consistent(isActivated, selectedScenario)
    ensures DisabledCount(isActivated, selectedScenario, Scenarios) == if isActivated then 3 else 0
  {
    var t1 := Scenarios[1..];
    var t2 := t1[1..];
    var t3 := t2[1..];
    assert t3[1..] == [];
    assert DisabledCount(isActivated, selectedScenario, t3[1..]) == 0;
    assert t1[0].id == "family" && t2[0].id == "transport" && t3[0].id == "weather";
    var c3 := DisabledCount(isActivated, selectedScenario, t3);
    var c2 := DisabledCount(isActivated, selectedScenario, t2);
    var c1 := DisabledCount(isActivated, selectedScenario, t1);
    assert c3 == if isActivated && selectedScenario != "weather" then 1 else 0;
    assert c2 == c3 + if isActivated && selectedScenario != "transport" then 1 else 0;
    assert c1 == c2 + if isActivated && selectedScenario != "family" then 1 else 0;
  }

  /** The badge variant of an urgency: critical is destructive, high the default, anything else secondary. */
  function UrgencyBadge(urgency: string): (v: BadgeVariant)
    ensures v == Destructive <==> urgency == "critical"
    ensures v == Default <==> urgency == "high"
    ensures v == Secondary <==> urgency != "critical" && urgency != "high"
  {
    if urgency == "critical" then Destructive else if urgency == "high" then Default else Secondary
  }

  /** The emergency panel's state. */
  class EmergencySystem {
    var isActivated: bool
    var selectedScenario: string

    ghost predicate Valid()
      reads this
    {
      Consistent(isActivated, selectedScenario)
    }

    constructor ()
      ensures Valid() && !isActivated && selectedScenario == ""
    {
      isActivated, selectedScenario := false, "";
    }

    /**
     * `activateEmergency`: an id outside the table changes nothing; a known id
     * becomes the selected scenario and the mode becomes active. The message
     * read aloud is returned.
     */
    method Activate(scenarioId: string) returns (spoken: Option<string>)
      requires Valid()
      modifies this
      ensures Valid()
      ensures !IsScenarioId(scenarioId) ==> isActivated == old(isActivated) && selectedScenario == old(selectedScenario) && spoken == None
      ensures IsScenarioId(scenarioId) ==> isActivated && selectedScenario == scenarioId
      ensures IsScenarioId(scenarioId) ==> spoken.Some? && spoken == Some(FindScenario(scenarioId).value.message)
    {
      var scenario := FindScenario(scenarioId);
      if scenario.None? {
        return None;
      }
      selectedScenario := scenarioId;
      isActivated := true;
      spoken := Some(scenario.value.message);
    }

    /** The compact header button: always activates the family scenario, whatever is active. */
    method PressHeaderButton() returns (spoken: Option<string>)
      requires Valid()
      modifies this
      ensures Valid() && isActivated && selectedScenario == "family"
    {
      spoken := Activate("family");
    }

    /** `deactivateEmergency`: the mode is off and nothing is selected. */
    method Deactivate()
      requires Valid()
      modifies this
      ensures Valid() && !isActivated && selectedScenario == ""
    {
      isActivated := false;
      selectedScenario := "";
    }
  }
}
