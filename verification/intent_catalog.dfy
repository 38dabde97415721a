/** The fixed intent catalog (`intentsDocumentation`) and the function mapping
    derived from it (`intentFunctionMapping`). */
module IntentCatalog {
  import opened Common

  datatype IntentParameter = IntentParameter(name: string, description: string, required: bool)

  datatype Intent = Intent(
    name: string,
    description: string,
    parameters: seq<IntentParameter>,
    examples: seq<string>)

  const UnknownIntent := "unknown"

  const TicketIdParameter := IntentParameter("ticketId", "The ID of the Jira ticket (e.g., 'CPG-12').", true)

  const Catalog: seq<Intent> := [
    Intent(
      "getStatus",
      "Retrieve the current status of a specific Jira ticket.",
      [TicketIdParameter],
      ["What's the status of CPG-12?", "Is ticket CPG-12 resolved?", "Where did we get with CPG-12?"]),
    Intent(
      "getDetails",
      "Retrieve detailed information about a specific Jira ticket.",
      [TicketIdParameter],
      ["Tell me more about CPG-12.", "What's the priority of CPG-12?", "Can you give me the details of CPG-12?"]),
    Intent(
      UnknownIntent,
      "Use when the query does not match any defined intent.",
      [],
      ["What do you think of the weather?", "Can you recommend a good book?"])
  ]

  /** `intentsDocumentation.intents.some(v => v.name === name)`. */
  predicate InCatalog(name: string) {
    exists i | 0 <= i < |Catalog| :: Catalog[i].name == name
  }

  /** The catalog's shape: three intents in a fixed order, distinct names, at
      least one example each, the two real intents taking one required
      `ticketId` parameter and `unknown` taking none. */
  lemma CatalogShape()
    ensures |Catalog| == 3
    ensures Catalog[0].name == "getStatus" && Catalog[1].name == "getDetails"
            && Catalog[2].name == UnknownIntent
    ensures forall i, j :: 0 <= i < j < |Catalog| ==> Catalog[i].name != Catalog[j].name
    ensures forall i :: 0 <= i < |Catalog| ==> |Catalog[i].examples| >= 1
    ensures forall i :: 0 <= i < 2 ==>
              |Catalog[i].parameters| == 1 && Catalog[i].parameters[0].name == "ticketId"
              && Catalog[i].parameters[0].required
    ensures Catalog[2].parameters == []
    ensures forall n :: InCatalog(n) <==> n in {"getStatus", "getDetails", UnknownIntent}
  {
  }

  // ---------------------------------------------------------------------------
  // The derived mapping

  datatype FunctionParameter = FunctionParameter(
    name: string, description: string, required: bool, paramType: string)

  datatype FunctionMapping = FunctionMapping(
    functionName: string, description: string, parameters: seq<FunctionParameter>)

  /** `{ ...param, type: 'string' }`. */
  function ToFunctionParameter(p: IntentParameter): (f: FunctionParameter)
    ensures f.name == p.name && f.description == p.description && f.required == p.required
    ensures f.paramType == "string"
  {
    FunctionParameter(p.name, p.description, p.required, "string")
  }

  function MappingFor(i: Intent): FunctionMapping {
    FunctionMapping(i.name, i.description, Map(i.parameters, ToFunctionParameter))
  }

  /** `Object.fromEntries`: a later entry for the same key wins. */
  function FromEntries(intents: seq<Intent>): (m: map<string, FunctionMapping>)
    ensures m.Keys == set i | i in intents :: i.name
    ensures forall k :: k in m ==> exists i :: i in intents && i.name == k && m[k] == MappingFor(i)
    decreases |intents|
  {
    if |intents| == 0 then map[]
    else
      var init := intents[..|intents| - 1];
      var last := intents[|intents| - 1];
      assert forall i :: i in intents <==> i in init || i == last;
      FromEntries(init)[last.name := MappingFor(last)]
  }

  /** `intentFunctionMapping`, built from any catalog: one entry per intent
      other than `unknown`, keyed by its name; the entry names itself, copies
      the intent's description and turns each parameter into a string-typed
      function parameter, keeping their order. */
  function BuildMapping(intents: seq<Intent>): (m: map<string, FunctionMapping>)
    ensures m.Keys == set i | i in intents && i.name != UnknownIntent :: i.name
    ensures forall k :: k in m ==>
              && m[k].functionName == k
              && exists i :: i in intents && i.name == k && m[k].description == i.description
                             && |m[k].parameters| == |i.parameters|
                             && forall j :: 0 <= j < |i.parameters| ==>
                                  m[k].parameters[j] == ToFunctionParameter(i.parameters[j])
  {
    var known := Filter(intents, (i: Intent) => i.name != UnknownIntent);
    FromEntries(known)
  }

  const IntentFunctionMapping: map<string, FunctionMapping> := BuildMapping(Catalog)

  const TicketIdFunctionParameter := FunctionParameter("ticketId", TicketIdParameter.description, true, "string")

  /** The mapping of the actual catalog: exactly `getStatus` and `getDetails`,
      each naming itself, carrying its intent's description and the single
      string-typed, required `ticketId` parameter. */
  lemma MappingOfCatalog()
    ensures IntentFunctionMapping == map[
              "getStatus" := FunctionMapping("getStatus", Catalog[0].description, [TicketIdFunctionParameter]),
              "getDetails" := FunctionMapping("getDetails", Catalog[1].description, [TicketIdFunctionParameter])]
  {
    CatalogMappingEntries();
    MappingForTicketIntent(Catalog[0]);
    MappingForTicketIntent(Catalog[1]);
  }

  lemma CatalogMappingEntries()
    ensures IntentFunctionMapping == map["getStatus" := MappingFor(Catalog[0]), "getDetails" := MappingFor(Catalog[1])]
  {
    KnownIntentsOfCatalog();
    FromEntriesOfTwo(Catalog[0], Catalog[1]);
  }

  lemma FromEntriesOfTwo(a: Intent, b: Intent)
    ensures FromEntries([a, b]) == map[a.name := MappingFor(a), b.name := MappingFor(b)]
  {
    assert [a, b][..1] == [a];
    assert [a][..0] == [];
  }

  /** The mapping's keys are exactly the two projections' names. */
  lemma MappingKeys()
    ensures forall k :: k in IntentFunctionMapping <==> k == "getStatus" || k == "getDetails"
  {
    CatalogMappingEntries();
    KeysOfTwo(IntentFunctionMapping, "getStatus", "getDetails", MappingFor(Catalog[0]), MappingFor(Catalog[1]));
  }

  lemma KeysOfTwo<V>(m: map<string, V>, a: string, b: string, x: V, y: V)
    requires m == map[a := x, b := y]
    ensures forall k :: k in m <==> k == a || k == b
  {
  }

  lemma MappingForTicketIntent(i: Intent)
    requires i.parameters == [TicketIdParameter]
    ensures MappingFor(i) == FunctionMapping(i.name, i.description, [TicketIdFunctionParameter])
  {
    assert Map(i.parameters, ToFunctionParameter) == [TicketIdFunctionParameter];
  }

  lemma KnownIntentsOfCatalog()
    ensures Filter(Catalog, (i: Intent) => i.name != UnknownIntent) == [Catalog[0], Catalog[1]]
  {
    var keep := (i: Intent) => i.name != UnknownIntent;
    assert Catalog == [Catalog[0]] + ([Catalog[1]] + ([Catalog[2]] + []));
    FilterCons(Catalog[2], [], keep);
    FilterCons(Catalog[1], [Catalog[2]] + [], keep);
    FilterCons(Catalog[0], [Catalog[1]] + ([Catalog[2]] + []), keep);
  }
}
