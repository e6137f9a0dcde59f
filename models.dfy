/**
 * The model catalog of src/agent/models.ts: the AI Gateway's model list,
 * narrowed to one provider's language models, sorted by id, and the chat
 * message that lists them. The gateway's answer is the parameter `catalog`.
 */
module Models {
  import opened Common
  import opened ProviderModel

  /** One entry of the gateway catalog; `modelType` is absent (`null`) or a type name such as "language". */
  datatype GatewayModel = GatewayModel(id: string, name: string, description: Option<string>, modelType: Option<string>)

  datatype AvailableModel = AvailableModel(id: string, name: string, description: Option<string>)

  /** Code-unit order on strings: a prefix comes first, otherwise the first differing character decides. */
  predicate IdLe(a: string, b: string)
    decreases |a|
  {
    a == [] || (b != [] && (a[0] < b[0] || (a[0] == b[0] && IdLe(a[1..], b[1..]))))
  }

  lemma {:induction false} IdLeTotal(a: string, b: string)
    ensures IdLe(a, b) || IdLe(b, a)
    decreases |a|
  {
    if a != [] && b != [] && a[0] == b[0] {
      IdLeTotal(a[1..], b[1..]);
    }
  }

  /** Each id is at most the next one. */
  ghost predicate SortedById(ms: seq<AvailableModel>) {
    forall i :: 0 < i < |ms| ==> IdLe(ms[i - 1].id, ms[i].id)
  }

  /** The filter: the id starts with "<provider>/" and the type is "language" or absent. */
  predicate Offered(prefix: string, m: GatewayModel) {
    prefix <= m.id && (m.modelType == Some("language") || m.modelType.None?)
  }

  function Filter(prefix: string, ms: seq<GatewayModel>): (r: seq<GatewayModel>)
    ensures forall m :: m in r <==> m in ms && Offered(prefix, m)
    ensures |r| <= |ms|
  {
    if ms == [] then []
    else (if Offered(prefix, ms[0]) then [ms[0]] else []) + Filter(prefix, ms[1..])
  }

  function Strip(m: GatewayModel): AvailableModel {
    AvailableModel(m.id, m.name, m.description)
  }

  function StripAll(ms: seq<GatewayModel>): (r: seq<AvailableModel>)
    ensures |r| == |ms| && forall i :: 0 <= i < |ms| ==> r[i] == Strip(ms[i])
  {
    if ms == [] then [] else [Strip(ms[0])] + StripAll(ms[1..])
  }

  /** Insert `m` before the first model whose id is not smaller; equal ids keep their arrival order after earlier ones. */
  function Insert(m: AvailableModel, sorted: seq<AvailableModel>): (r: seq<AvailableModel>)
    requires SortedById(sorted)
    ensures SortedById(r)
    ensures multiset(r) == multiset(sorted) + multiset{m}
    ensures |r| > 0 && (r[0] == m || (|sorted| > 0 && r[0] == sorted[0]))
    decreases |sorted|
  {
    if sorted == [] then [m]
    else if IdLe(m.id, sorted[0].id) && m.id != sorted[0].id then [m] + sorted
    else
      var rest := Insert(m, sorted[1..]);
      IdLeTotal(m.id, sorted[0].id);
      assert multiset(sorted) == multiset{sorted[0]} + multiset(sorted[1..]) by {
        assert sorted == [sorted[0]] + sorted[1..];
      }
      [sorted[0]] + rest
  }

  /** `.sort((a, b) => a.id.localeCompare(b.id))`, as a stable insertion sort. */
  function SortById(ms: seq<AvailableModel>): (r: seq<AvailableModel>)
    ensures SortedById(r)
    ensures multiset(r) == multiset(ms)
    decreases |ms|
  {
    if ms == [] then []
    else
      var init := ms[..|ms| - 1];
      var sorted := SortById(init);
      assert multiset(ms) == multiset(init) + multiset{Last(ms)} by {
        assert ms == init + [Last(ms)];
      }
      Insert(Last(ms), sorted)
  }

  /**
   * `listAvailableModelsForProvider`: the custom provider lists nothing and
   * never asks the gateway; otherwise a gateway failure propagates, and a
   * catalog is filtered, stripped to id, name and description, and sorted.
   */
  function ListAvailableModels(provider: ProviderType, catalog: Result<seq<GatewayModel>, Thrown>): (r: Result<seq<AvailableModel>, Thrown>)
    ensures provider == Custom ==> r == Ok([])
    ensures provider != Custom && catalog.Err? ==> r == Err(catalog.error)
    ensures r.Ok? ==> SortedById(r.value)
  {
    if provider == Custom then Ok([])
    else match catalog
      case Err(e) => Err(e)
      case Ok(models) => Ok(SortById(StripAll(Filter(ProviderName(provider) + "/", models))))
  }

  /** Exactly the provider's language models are listed, each once per catalog entry, sorted by id. */
  lemma ListedAreOffered(provider: ProviderType, models: seq<GatewayModel>)
    requires provider != Custom
    ensures var listed := ListAvailableModels(provider, Ok(models)).value;
            var chosen := Filter(ProviderName(provider) + "/", models);
            multiset(listed) == multiset(StripAll(chosen)) &&
            SortedById(listed) &&
            forall a :: a in listed ==> exists m :: m in models && Offered(ProviderName(provider) + "/", m) && a == Strip(m)
  {
    var chosen := Filter(ProviderName(provider) + "/", models);
    var listed := ListAvailableModels(provider, Ok(models)).value;
    forall a | a in listed
      ensures exists m :: m in models && Offered(ProviderName(provider) + "/", m) && a == Strip(m)
    {
      assert a in multiset(StripAll(chosen));
      var i :| 0 <= i < |StripAll(chosen)| && StripAll(chosen)[i] == a;
      assert chosen[i] in chosen;
    }
  }

  /** The custom provider's listing does not depend on the gateway at all. */
  lemma CustomIgnoresGateway(c1: Result<seq<GatewayModel>, Thrown>, c2: Result<seq<GatewayModel>, Thrown>)
    ensures ListAvailableModels(Custom, c1) == ListAvailableModels(Custom, c2) == Ok([])
  {
  }

  function ModelLine(m: AvailableModel): string {
    "  - " + m.id
  }

  function ModelLines(ms: seq<AvailableModel>): (r: seq<string>)
    ensures |r| == |ms| && forall i :: 0 <= i < |ms| ==> r[i] == ModelLine(ms[i])
  {
    if ms == [] then [] else [ModelLine(ms[0])] + ModelLines(ms[1..])
  }

  /** `formatAvailableModelsMessage` */
  function FormatAvailableModels(provider: ProviderType, models: seq<AvailableModel>): (text: string)
    ensures |models| > 0 <==> "Available models for " + ProviderName(provider) + ":\n" <= text
    ensures |models| == 0 <==> "No models found for " + ProviderName(provider) <= text
  {
    var heading := "Available models for " + ProviderName(provider) + ":\n";
    var missing := "No models found for " + ProviderName(provider);
    assert heading[0] == 'A' && missing[0] == 'N';
    if |models| == 0 then
      var t := missing + " in AI Gateway catalog.";
      assert t[0] == 'N';
      t
    else
      var t := heading + Join(ModelLines(models), "\n");
      assert t[0] == 'A';
      t
  }

  /** Read line by line, a non-empty listing is a heading followed by one "  - <id>" line per model, in order. */
  lemma {:induction false} FormatLines(provider: ProviderType, models: seq<AvailableModel>)
    requires |models| > 0
    requires forall i :: 0 <= i < |models| ==> '\n' !in models[i].id
    ensures Split(FormatAvailableModels(provider, models), '\n') ==
            ["Available models for " + ProviderName(provider) + ":"] + ModelLines(models)
  {
    var heading := "Available models for " + ProviderName(provider) + ":";
    var lines := ModelLines(models);
    forall i | 0 <= i < |lines| ensures '\n' !in lines[i] {
      assert lines[i] == "  - " + models[i].id;
    }
    SplitJoin(lines, '\n');
    HeadingIsOneLine(provider);
    HeadingThenLines(provider, Join(lines, "\n"));
    SplitAppend(heading, Join(lines, "\n"), '\n');
  }

  lemma HeadingIsOneLine(provider: ProviderType)
    ensures '\n' !in "Available models for " + ProviderName(provider) + ":"
  {
    var name := ProviderName(provider);
    assert '\n' !in name;
    assert '\n' !in "Available models for " && '\n' !in ":";
  }

  lemma HeadingThenLines(provider: ProviderType, body: string)
    ensures "Available models for " + ProviderName(provider) + ":\n" + body
            == "Available models for " + ProviderName(provider) + ":" + ['\n'] + body
  {
    assert ":\n" == ":" + ['\n'];
  }

  /** Two models, as in the formatting test: the heading, then "  - <id>" for each in order. */
  lemma FormatTwo(provider: ProviderType, a: AvailableModel, b: AvailableModel)
    requires '\n' !in a.id && '\n' !in b.id
    ensures Split(FormatAvailableModels(provider, [a, b]), '\n')
            == ["Available models for " + ProviderName(provider) + ":", "  - " + a.id, "  - " + b.id]
  {
    var ms := [a, b];
    assert ModelLines(ms) == ["  - " + a.id, "  - " + b.id] by {
      assert ModelLines(ms)[0] == "  - " + a.id && ModelLines(ms)[1] == "  - " + b.id;
    }
    FormatLines(provider, ms);
  }

  /** The formatting test with no models. */
  lemma FormatEmptyScenario()
    ensures FormatAvailableModels(OpenAI, []) == "No models found for openai in AI Gateway catalog."
  {
  }

  /** The catalog test: the embedding model and the other provider's model are dropped, and the rest come sorted by id. */
  lemma ListingScenario(gpt5: GatewayModel, embedding: GatewayModel, mini: GatewayModel, sonnet: GatewayModel)
    requires gpt5 == GatewayModel("openai/gpt-5", "GPT-5", None, Some("language"))
    requires embedding == GatewayModel("openai/text-embedding-3-large", "Embedding", None, Some("embedding"))
    requires mini == GatewayModel("openai/gpt-4o-mini", "GPT-4o Mini", Some("mini"), None)
    requires sonnet == GatewayModel("anthropic/claude-sonnet-4", "Claude Sonnet 4", None, Some("language"))
    ensures ListAvailableModels(OpenAI, Ok([gpt5, embedding, mini, sonnet]))
            == Ok([AvailableModel("openai/gpt-4o-mini", "GPT-4o Mini", Some("mini")), AvailableModel("openai/gpt-5", "GPT-5", None)])
  {
    assert ProviderName(OpenAI) + "/" == "openai/";
    ScenarioFilter(gpt5, embedding, mini, sonnet);
    var stripped := StripAll([gpt5, mini]);
    assert stripped == [Strip(gpt5), Strip(mini)];
    ScenarioSort(Strip(gpt5), Strip(mini));
  }

  lemma ScenarioFilter(gpt5: GatewayModel, embedding: GatewayModel, mini: GatewayModel, sonnet: GatewayModel)
    requires gpt5 == GatewayModel("openai/gpt-5", "GPT-5", None, Some("language"))
    requires embedding == GatewayModel("openai/text-embedding-3-large", "Embedding", None, Some("embedding"))
    requires mini == GatewayModel("openai/gpt-4o-mini", "GPT-4o Mini", Some("mini"), None)
    requires sonnet == GatewayModel("anthropic/claude-sonnet-4", "Claude Sonnet 4", None, Some("language"))
    ensures Filter("openai/", [gpt5, embedding, mini, sonnet]) == [gpt5, mini]
  {
    var prefix := "openai/";
    assert !Offered(prefix, sonnet) by {
      assert sonnet.id[0] != prefix[0];
    }
    assert Offered(prefix, gpt5) && !Offered(prefix, embedding) && Offered(prefix, mini);
    var all := [gpt5, embedding, mini, sonnet];
    assert Filter(prefix, all[3..]) == [] by {
      assert all[3..][1..] == [];
    }
    assert Filter(prefix, all[2..]) == [mini] by {
      assert all[2..][1..] == all[3..];
    }
    assert Filter(prefix, all[1..]) == [mini] by {
      assert all[1..][1..] == all[2..];
    }
  }

  lemma ScenarioSort(gpt5: AvailableModel, mini: AvailableModel)
    requires gpt5.id == "openai/gpt-5" && mini.id == "openai/gpt-4o-mini"
    ensures SortById([gpt5, mini]) == [mini, gpt5]
  {
    assert IdLe(mini.id, gpt5.id) && mini.id != gpt5.id by {
      assert mini.id[..11] == gpt5.id[..11] && mini.id[11] < gpt5.id[11];
      IdLeAt(mini.id, gpt5.id, 11);
    }
    assert [gpt5, mini][..1] == [gpt5];
    assert SortById([gpt5]) == [gpt5];
  }

  lemma {:induction false} IdLeAt(a: string, b: string, k: nat)
    requires k < |a| && k < |b| && a[..k] == b[..k] && a[k] < b[k]
    ensures IdLe(a, b)
    decreases k
  {
    if k > 0 {
      assert a[1..][..k - 1] == a[..k][1..];
      assert b[1..][..k - 1] == b[..k][1..];
      assert a[0] == a[..k][0] && b[0] == b[..k][0];
      IdLeAt(a[1..], b[1..], k - 1);
    }
  }
}
