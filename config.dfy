/** The model constants, pricing table, cost formula and database registry of
    notion_rag/config.py. */
module Config {
  import opened Wrappers
  import opened Strings

  /** Models used when settings.json does not override them. */
  const DefaultQueryModel: string := "gemini-2.5-flash-lite"
  const EmbeddingModel: string := "gemini-embedding-001"
  const ImageVisionModel: string := "gemini-3-flash-preview"

  /** USD per million (input, output) tokens. */
  const Pricing: map<string, (real, real)> := map[
    "gemini-2.5-flash-lite" := (0.10, 0.40),
    "gemini-2.5-flash" := (0.15, 0.60),
    "gemini-2.5-pro" := (1.25, 10.00),
    "gemini-3-flash-preview" := (0.15, 0.60),
    "gemini-3-pro-preview" := (2.00, 12.00),
    "gemini-embedding-001" := (0.15, 0.00)
  ]

  /** The rate pair of a model; an unknown model is free. */
  function Rate(model: string): (r: (real, real))
    ensures r.0 >= 0.0 && r.1 >= 0.0
    ensures model !in Pricing ==> r == (0.0, 0.0)
  {
    if model in Pricing then Pricing[model] else (0.0, 0.0)
  }

  /** `calc_cost`: USD for a call with the given token counts. */
  function CalcCost(model: string, inputTokens: nat, outputTokens: nat := 0): (cost: real)
    ensures cost >= 0.0
    ensures model !in Pricing ==> cost == 0.0
  {
    var rate := Rate(model);
    (inputTokens as real / 1000000.0 * rate.0) + (outputTokens as real / 1000000.0 * rate.1)
  }

  /** Input and output tokens are charged independently. */
  lemma CalcCostAdditive(model: string, inputTokens: nat, outputTokens: nat)
    ensures CalcCost(model, inputTokens, 0) + CalcCost(model, 0, outputTokens) == CalcCost(model, inputTokens, outputTokens)
  {
  }

  /** Charging two batches of input tokens separately costs the same as charging them together. */
  lemma CalcCostSplit(model: string, a: nat, b: nat)
    ensures CalcCost(model, a) + CalcCost(model, b) == CalcCost(model, a + b)
  {
    var rate := Rate(model);
    assert (a + b) as real / 1000000.0 * rate.0 == a as real / 1000000.0 * rate.0 + b as real / 1000000.0 * rate.0;
  }

  /** More tokens never cost less. */
  lemma CalcCostMonotone(model: string, i1: nat, o1: nat, i2: nat, o2: nat)
    requires i1 <= i2 && o1 <= o2
    ensures CalcCost(model, i1, o1) <= CalcCost(model, i2, o2)
  {
    var rate := Rate(model);
    assert i1 as real / 1000000.0 * rate.0 <= i2 as real / 1000000.0 * rate.0;
    assert o1 as real / 1000000.0 * rate.1 <= o2 as real / 1000000.0 * rate.1;
  }

  /** Embedding is priced on input only, at 0.15 USD per million tokens whatever the output count. */
  lemma EmbeddingCost(inputTokens: nat, outputTokens: nat)
    ensures CalcCost(EmbeddingModel, inputTokens, outputTokens) == inputTokens as real * 0.15 / 1000000.0
    ensures CalcCost(EmbeddingModel, inputTokens, outputTokens) == CalcCost(EmbeddingModel, inputTokens)
  {
  }

  /** There is exactly one key in a one-entry map. */
  lemma OnlyKey(m: map<string, string>, a: string, b: string)
    requires |m| == 1 && a in m && b in m
    ensures a == b
  {
    assert m.Keys == (m.Keys - {a}) + {a};
    assert |m.Keys - {a}| == 0;
    assert b !in m.Keys - {a};
  }

  /** The labels for an error message: sorted and comma-separated, or "(none)". */
  function AvailableLabels(databases: map<string, string>): string
  {
    if |databases| == 0 then "(none)" else Join(SortedSet(databases.Keys), ", ")
  }

  /** `resolve_db`: the (label, url) pair a label or the single registered database names. */
  function ResolveDb(databases: map<string, string>, name: Option<string>): (r: Result<(string, string)>)
    ensures name.Some? ==> (r.Ok? <==> name.value in databases)
    ensures name.Some? && r.Ok? ==> r.value == (name.value, databases[name.value])
    ensures name.None? ==> (r.Ok? <==> |databases| == 1)
    ensures name.None? && r.Ok? ==> databases.Keys == {r.value.0} && r.value.1 == databases[r.value.0]
  {
    if name.Some? then
      if name.value in databases then Ok((name.value, databases[name.value]))
      else Err("Unknown database label '" + name.value + "'. Available labels: " + AvailableLabels(databases))
    else if |databases| == 1 then
      var only :| only in databases;
      assert forall k :: k in databases ==> k == only by {
        forall k | k in databases ensures k == only { OnlyKey(databases, k, only); }
      }
      Ok((only, databases[only]))
    else if |databases| == 0 then Err("No databases registered. Run 'init <name> <url>' first.")
    else Err("Multiple databases registered. Specify one: " + Join(SortedSet(databases.Keys), ", "))
  }

  /** The three error branches of `resolve_db` and their messages. */
  lemma ResolveDbErrors(databases: map<string, string>, name: Option<string>)
    ensures name.Some? && name.value !in databases ==>
              ResolveDb(databases, name) == Err("Unknown database label '" + name.value + "'. Available labels: " + AvailableLabels(databases))
    ensures name.None? && |databases| == 0 ==>
              ResolveDb(databases, name) == Err("No databases registered. Run 'init <name> <url>' first.")
    ensures name.None? && |databases| >= 2 ==>
              ResolveDb(databases, name) == Err("Multiple databases registered. Specify one: " + AvailableLabels(databases))
  {
  }

  /** The in-memory registry `DATABASES`. */
  class Registry {
    var databases: map<string, string>

    constructor (initial: map<string, string>)
      ensures databases == initial
    {
      databases := initial;
    }

    /** `save_database`, without the settings.json write: registers `name`. */
    method SaveDatabase(name: string, dbUrl: string)
      modifies this
      ensures databases == old(databases)[name := dbUrl]
      ensures name in databases && databases[name] == dbUrl
      ensures forall other :: other != name && other in old(databases) ==> other in databases && databases[other] == old(databases)[other]
      ensures databases.Keys == old(databases).Keys + {name}
    {
      databases := databases[name := dbUrl];
    }
  }

  /** After a label is saved, resolving it returns the saved url. */
  lemma SavedLabelResolves(databases: map<string, string>, name: string, dbUrl: string)
    ensures ResolveDb(databases[name := dbUrl], Some(name)) == Ok((name, dbUrl))
  {
  }

  /** Saving one label never changes how another label resolves. */
  lemma SaveKeepsOthers(databases: map<string, string>, name: string, dbUrl: string, other: string)
    requires other != name
    ensures ResolveDb(databases[name := dbUrl], Some(other)).Ok? == ResolveDb(databases, Some(other)).Ok?
    ensures ResolveDb(databases, Some(other)).Ok? ==>
              ResolveDb(databases[name := dbUrl], Some(other)) == ResolveDb(databases, Some(other))
  {
  }
}
