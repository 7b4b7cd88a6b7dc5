/** Model-name resolution (Gemini names to provider-namespaced names) and the
    default output-token budget per model family. */
module ModelNames {
  import opened Strings

  /** The provider's namespace for Google's models. */
  function Google(name: string): string {
    "google/" + name
  }

  /** The fixed table of Gemini names and their namespaced counterparts. */
  const ModelMap: map<string, string> := map[
    "gemini-2.5-pro" := Google("gemini-2.5-pro"),
    "gemini-2.5-flash" := Google("gemini-2.5-flash"),
    "gemini-2.5-pro-preview" := Google("gemini-2.5-pro-preview"),
    "gemini-2.5-flash-preview" := Google("gemini-2.5-flash-preview"),
    "gemini-2.0-flash-thinking-exp" := Google("gemini-2.0-flash-thinking-exp"),
    "gemini-2.0-flash-exp" := Google("gemini-2.0-flash-exp"),
    "gemini-pro" := Google("gemini-pro"),
    "gemini-pro-vision" := Google("gemini-pro-vision"),
    "gemini-1.5-pro" := Google("gemini-pro-1.5"),
    "gemini-1.5-flash" := Google("gemini-flash-1.5")
  ]

  /** A name already holding the namespace separator passes through; otherwise
      the table is consulted and a miss passes the name through. */
  function MapModel(model: string): (r: string)
    ensures '/' in model ==> r == model
    ensures model !in ModelMap ==> r == model
    ensures '/' !in model && model in ModelMap ==> r == ModelMap[model]
  {
    if '/' in model then model
    else if model in ModelMap then ModelMap[model]
    else model
  }

  /** Every namespaced name in the table holds the separator. */
  lemma TableValuesNamespaced()
    ensures forall m :: m in ModelMap ==> '/' in ModelMap[m]
  {
    forall m | m in ModelMap
      ensures '/' in ModelMap[m]
    {
      assert ModelMap[m][6] == '/';
    }
  }

  /** Resolving is idempotent, and its result is namespaced or the input itself. */
  lemma MapModelIdempotent(model: string)
    ensures MapModel(MapModel(model)) == MapModel(model)
    ensures '/' in MapModel(model) || MapModel(model) == model
  {
    TableValuesNamespaced();
  }

  /** The default output-token budget: the first matching family rule wins. */
  function MaxTokensForModel(model: string): (r: int)
    ensures r == 8192 <==> Contains(model, "gemini-2.5") || Contains(model, "gemini-pro")
    ensures r == 8192 || r == 4096
  {
    if Contains(model, "gemini-2.5") then 8192
    else if Contains(model, "gemini-pro") then 8192
    else if Contains(model, "claude") then 4096
    else if Contains(model, "gpt-4") then 4096
    else 4096
  }

  /** Apart from the two Gemini 1.5 names, the table only adds the "google/" namespace. */
  lemma TableAddsNamespace(model: string)
    requires model in ModelMap && model != "gemini-1.5-pro" && model != "gemini-1.5-flash"
    ensures ModelMap[model] == Google(model)
  {
  }

  /** A Gemini 2.5 name keeps its 8192-token budget once resolved. */
  lemma Gemini25BudgetSurvivesMapping(model: string)
    requires Contains(model, "gemini-2.5")
    ensures MaxTokensForModel(MapModel(model)) == 8192
  {
    if '/' !in model && model in ModelMap {
      ContainedCharacters(model, "gemini-2.5", '2');
      assert '2' !in "gemini-1.5-pro" && '2' !in "gemini-1.5-flash";
      TableAddsNamespace(model);
      ContainsAfterPrefix("google/", model, "gemini-2.5");
      assert Google(model) == "google/" + model;
    }
  }

  /** Neither 8192-token family name occurs in "gemini-1.5-pro". */
  lemma NotInGeminiFamilies(name: string)
    requires name == "gemini-1.5-pro"
    ensures !Contains(name, "gemini-2.5") && !Contains(name, "gemini-pro")
  {
    ContainsIffOccurs(name, "gemini-2.5");
    ContainsIffOccurs(name, "gemini-pro");
    forall i | 0 <= i <= 4
      ensures !OccursAt(name, "gemini-2.5", i) && !OccursAt(name, "gemini-pro", i)
    {
      assert name[i..i + 10][7] != '2';
      assert name[i..i + 10][0] != 'g' || name[i..i + 10][7] != 'p';
    }
  }

  /** "gemini-pro" occurs in the resolved name of "gemini-1.5-pro". */
  lemma InGeminiProFamily(name: string)
    requires name == Google("gemini-pro-1.5")
    ensures Contains(name, "gemini-pro")
  {
    assert Contains("gemini-pro" + "-1.5", "gemini-pro");
    ContainsAfterPrefix("google/", "gemini-pro" + "-1.5", "gemini-pro");
    assert "gemini-pro" + "-1.5" == "gemini-pro-1.5";
  }

  /** "gemini-1.5-pro" is in the table and resolves to "google/gemini-pro-1.5". */
  lemma ResolvesGemini15Pro(name: string)
    requires name == "gemini-1.5-pro"
    ensures MapModel(name) == Google("gemini-pro-1.5")
  {
    assert '/' !in name;
    assert name in ModelMap;
  }

  /** The budget is taken from the resolved name: "gemini-1.5-pro" alone has the
      fallback budget, but it resolves to "google/gemini-pro-1.5", whose budget is 8192. */
  lemma BudgetDependsOnResolvedName(name: string)
    requires name == "gemini-1.5-pro"
    ensures MaxTokensForModel(name) == 4096
    ensures MapModel(name) == Google("gemini-pro-1.5")
    ensures MaxTokensForModel(MapModel(name)) == 8192
  {
    NotInGeminiFamilies(name);
    ResolvesGemini15Pro(name);
    InGeminiProFamily(MapModel(name));
  }
}
