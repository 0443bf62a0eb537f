/**
 * The 3D model library page: the category filter over the model assets and
 * the "Model Assignments" section, which lists the first three models with
 * the first three highlights of each.
 */
module ModelLibrary {
  import Seqs

  /** `ModelAsset`. */
  datatype ModelAsset = ModelAsset(
    id: string, name: string, category: string, glbUrl: string, posterUrl: string,
    updatedAt: string, fileSize: string, polygonCount: string, itemName: string,
    itemImage: string, itemDescription: string, itemHighlights: seq<string>)

  /** The one asset the library ships with; the pasta, beverage and burger entries are commented out. */
  const AstronautDome: ModelAsset := ModelAsset(
    "mdl-astro", "Astronaut Dessert Dome", "Desserts",
    "https://res.cloudinary.com/doo17a9l2/image/upload/v1762872988/text-to-3d-model_3d_7_pxkl2k.glb",
    "https://res.cloudinary.com/doo17a9l2/image/upload/v1762940127/Screenshot_2025-11-12_143334_fzhp3e.png",
    "2 hours ago", "9.2 MB", "64k", "Lunar Meringue Dome",
    "https://res.cloudinary.com/doo17a9l2/image/upload/v1762940127/Screenshot_2025-11-12_143334_fzhp3e.png",
    "A theatrical dessert reveal featuring citrus meringue and liquid nitrogen fog. Guests can rotate the dome to see plating angles.",
    ["Chef special", "Pairs with dry ice presentation", "Requires 4-inch platter"])

  /** `MODEL_ASSETS`. */
  const ModelAssets: seq<ModelAsset> := [AstronautDome]

  /** The category filter's test for a selected option. */
  function InCategory(filter: string): ModelAsset -> bool {
    (m: ModelAsset) => m.category == filter
  }

  /** `filteredModels`: "All" shows every model, any other option the models of that category. */
  function FilterModels(models: seq<ModelAsset>, filter: string): (r: seq<ModelAsset>)
    ensures filter == "All" ==> r == models
    ensures filter != "All" ==>
      forall m :: multiset(r)[m] == if m.category == filter then multiset(models)[m] else 0
  {
    if filter == "All" then models else Seqs.Filter(models, InCategory(filter))
  }

  /** The grid shows the models in library order, never more than the library holds. */
  lemma FilterModelsSubsequence(models: seq<ModelAsset>, filter: string)
    ensures Seqs.IsSubsequence(FilterModels(models, filter), models)
    ensures |FilterModels(models, filter)| <= |models|
  {
    if filter == "All" {
      Seqs.SubsequenceReflexive(models);
    } else {
      Seqs.FilterIsSubsequence(models, InCategory(filter));
    }
  }

  /** `MODEL_ASSETS.slice(0, 3)`: the models listed under "Model Assignments". */
  function Assignments(models: seq<ModelAsset>): (r: seq<ModelAsset>)
    ensures |r| <= 3 && r <= models
    ensures |models| <= 3 ==> r == models
    ensures |models| >= 3 ==> |r| == 3
  {
    Seqs.Take(models, 3)
  }

  /** `model.itemHighlights.slice(0, 3)`: the highlights listed for one model. */
  function ShownHighlights(m: ModelAsset): (r: seq<string>)
    ensures |r| <= 3 && r <= m.itemHighlights
    ensures |m.itemHighlights| <= 3 ==> r == m.itemHighlights
    ensures |m.itemHighlights| >= 3 ==> |r| == 3
  {
    Seqs.Take(m.itemHighlights, 3)
  }

  /** With the shipped library only the astronaut dome exists: the filters other than "All" and "Desserts" show nothing. */
  lemma SeededFilters()
    ensures FilterModels(ModelAssets, "Desserts") == ModelAssets
    ensures FilterModels(ModelAssets, "Pasta") == []
    ensures FilterModels(ModelAssets, "Beverages") == []
    ensures FilterModels(ModelAssets, "Burgers") == []
  {
    assert AstronautDome.category == "Desserts";
    assert ModelAssets[1..] == [];
  }

  /** The assignments section lists the single model with all three of its highlights. */
  lemma SeededAssignments()
    ensures Assignments(ModelAssets) == ModelAssets
    ensures ShownHighlights(AstronautDome) == AstronautDome.itemHighlights
  {
  }
}
