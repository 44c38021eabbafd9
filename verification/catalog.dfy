/**
 The static model catalog (`models_json`, `default_model`) and the choice of
 inference back-end by substring of the model name.
 */
module Catalog {
  import opened Text

  /** One invocable model: its identifier and a description. */
  datatype ModelVariation = ModelVariation(name: string, description: string)

  /** A model family and its variations, in display order. */
  datatype ModelGroup = ModelGroup(baseModel: string, variations: seq<ModelVariation>)

  /** One selectable entry of the flattened catalog: family and identifier. */
  datatype Choice = Choice(baseModel: string, name: string)

  /** The catalog as the handler ships it. */
  const Models: seq<ModelGroup> := [
    ModelGroup("Gemini", [
      ModelVariation("gemini-1.5-pro-002", ""),
      ModelVariation("gemini-1.5-flash-002", ""),
      ModelVariation("text-embedding-005", "")
    ])
  ]

  /** The model a user gets before choosing one. */
  const DefaultModel: string := "gemini-1.5-pro-002"

  /** The selectable entries of one group, in order: the group's family
      paired with the identifier of each of its variations. */
  function GroupChoices(g: ModelGroup): (cs: seq<Choice>)
    ensures forall c :: c in cs <==> c.baseModel == g.baseModel && exists v :: v in g.variations && v.name == c.name
  {
    var cs := seq(|g.variations|, k requires 0 <= k < |g.variations| => Choice(g.baseModel, g.variations[k].name));
    assert forall k :: 0 <= k < |cs| ==> g.variations[k] in g.variations;
    assert forall c: Choice :: c.baseModel == g.baseModel && (exists v: ModelVariation :: v in g.variations && v.name == c.name) ==> c in cs
      by {
        forall c: Choice | c.baseModel == g.baseModel && exists v: ModelVariation :: v in g.variations && v.name == c.name
          ensures c in cs
        {
          var v :| v in g.variations && v.name == c.name;
          var k :| 0 <= k < |g.variations| && g.variations[k] == v;
          assert cs[k] == c;
        }
      }
    cs
  }

  /** Every variation of every group, group by group, in catalog order: the
      order of the nested comprehension over `models_json`. */
  function Choices(groups: seq<ModelGroup>): (cs: seq<Choice>)
    ensures forall c :: c in cs <==> exists g :: g in groups && c in GroupChoices(g)
  {
    if |groups| == 0 then []
    else
      assert forall g :: g in groups <==> g == groups[0] || g in groups[1..];
      GroupChoices(groups[0]) + Choices(groups[1..])
  }

  /** The `any(prompt == variation['name'] ...)` test: does some variation
      of some group carry exactly this identifier? */
  function IsModelName(groups: seq<ModelGroup>, prompt: string): (b: bool)
    ensures b <==> exists c :: c in Choices(groups) && c.name == prompt
  {
    if |groups| == 0 then false
    else
      var g := groups[0];
      var here := exists k :: 0 <= k < |g.variations| && g.variations[k].name == prompt;
      assert here <==> exists c :: c in GroupChoices(g) && c.name == prompt by {
        if here {
          var k :| 0 <= k < |g.variations| && g.variations[k].name == prompt;
          assert GroupChoices(g)[k] in GroupChoices(g);
        }
      }
      here || IsModelName(groups[1..], prompt)
  }

  /** The entries of the shipped catalog, written out. */
  lemma CatalogChoices()
    ensures Choices(Models) == [
      Choice("Gemini", "gemini-1.5-pro-002"),
      Choice("Gemini", "gemini-1.5-flash-002"),
      Choice("Gemini", "text-embedding-005")]
  {
    assert Models[1..] == [];
  }

  /** Identifiers are unique within the shipped catalog, and the default
      model is one of them. */
  lemma CatalogWellFormed()
    ensures forall i, j :: 0 <= i < j < |Choices(Models)| ==> Choices(Models)[i].name != Choices(Models)[j].name
    ensures IsModelName(Models, DefaultModel)
  {
    CatalogChoices();
    assert Choices(Models)[0].name == DefaultModel;
  }

  /** The inference back-ends: the Gemini API and the three PaLM 2 models. */
  datatype Backend = Gemini | PalmText | PalmCode | PalmChat

  /** The back-end a model name is routed to: the first of `gemini`, `text`
      and `code` that occurs in the name picks it, and the chat model takes
      everything else. */
  function Route(model: string): (b: Backend)
    ensures b == Gemini <==> exists i :: OccursAt(model, "gemini", i)
    ensures b == PalmText <==> (!exists i :: OccursAt(model, "gemini", i)) && (exists i :: OccursAt(model, "text", i))
    ensures b == PalmCode <==>
      (!exists i :: OccursAt(model, "gemini", i)) && (!exists i :: OccursAt(model, "text", i)) && (exists i :: OccursAt(model, "code", i))
  {
    if Contains(model, "gemini") then Gemini
    else if Contains(model, "text") then PalmText
    else if Contains(model, "code") then PalmCode
    else PalmChat
  }

  /** Where the shipped catalog is routed: the default model and every
      `gemini-*` entry go to Gemini, the embedding model to the text model. */
  lemma CatalogRouting()
    ensures Route(DefaultModel) == Gemini
    ensures Route("gemini-1.5-flash-002") == Gemini
    ensures Route("text-embedding-005") == PalmText
  {
    assert OccursAt(DefaultModel, "gemini", 0);
    assert OccursAt("gemini-1.5-flash-002", "gemini", 0);
    var e := "text-embedding-005";
    assert OccursAt(e, "text", 0);
    forall i | 0 <= i ensures !OccursAt(e, "gemini", i) {
      if i + 6 <= |e| {
        assert e[i..i + 6][0] == e[i];
      }
    }
  }
}
