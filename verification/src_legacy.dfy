/** The older, alias-free category repository of src/src.rs. Its data shapes,
    `player` and `PlayerEmbed::name` are the same as those of module `Src`. */
module LegacySrc {
  import opened Wrappers
  import opened Src
  import CategoryRepository

  datatype Repository = Repository(categories: map<string, Category>)

  /** `CategoriesRepository::new`: every category keyed by its id. */
  function New(cs: seq<Category>): (r: Repository)
    ensures forall i :: 0 <= i < |cs| ==> cs[i].id in r.categories
    ensures forall k :: k in r.categories ==> r.categories[k] in cs && r.categories[k].id == k
  {
    Repository(CategoryRepository.IndexCategories(cs))
  }

  /** `subcategory_name`: the loop returns from the first subcategory variable,
      giving up when the run has no value for it or the value id is unknown. */
  function SubcategoryName(vars: seq<Variable>, values: map<string, string>): (r: Option<string>)
    ensures (forall i :: 0 <= i < |vars| ==> !vars[i].isSubcategory) ==> r == None
    ensures forall i :: (0 <= i < |vars| && vars[i].isSubcategory &&
      forall j :: 0 <= j < i ==> !vars[j].isSubcategory) ==>
      r == (if vars[i].id in values && values[vars[i].id] in vars[i].values
            then Some(vars[i].values[values[vars[i].id]].labelText) else None)
  {
    if vars == [] then None
    else if vars[0].isSubcategory then
      var v := vars[0];
      if v.id !in values then None
      else if values[v.id] !in v.values then None
      else Some(v.values[values[v.id]].labelText)
    else
      var r := SubcategoryName(vars[1..], values);
      assert forall i :: 1 <= i < |vars| ==> vars[i] == vars[1..][i - 1];
      r
  }

  /** `category_name`: `None` for an unknown category; otherwise the category's
      name, preceded by the subcategory label and one space when there is one. */
  function CategoryName(repo: Repository, run: SRCRun): (r: Option<string>)
    ensures r.None? <==> run.category !in repo.categories
    ensures r.Some? ==>
      var cat := repo.categories[run.category];
      match SubcategoryName(cat.variables, run.values)
      case Some(sc) => r.value == sc + " " + cat.name
      case None => r.value == cat.name
  {
    if run.category !in repo.categories then None
    else
      var cat := repo.categories[run.category];
      match SubcategoryName(cat.variables, run.values)
      case Some(sc) => Some(sc + " " + cat.name)
      case None => Some(cat.name)
  }

  /** The later repository generalises this one: without alias rows it names
      every run exactly as this one does. */
  lemma AgreesWithoutAliases(cs: seq<Category>, run: SRCRun)
    ensures CategoryName(New(cs), run) ==
      CategoryRepository.CategoryNameFromRun(CategoryRepository.New(cs, []), run)
  {
    var repo := CategoryRepository.New(cs, []);
    assert repo.aliases == map[];
    if run.category in repo.categories {
      var cat := repo.categories[run.category];
      SameSubcategoryName(cat, run.values);
    }
  }

  /** Both versions of the subcategory search pick the same label. */
  lemma {:induction false} SameSubcategoryName(cat: Category, values: map<string, string>)
    ensures SubcategoryName(cat.variables, values) ==
      CategoryRepository.SubcategoryName(cat, values)
    decreases |cat.variables|
  {
    var vars := cat.variables;
    if vars != [] && !vars[0].isSubcategory {
      SameSubcategoryName(cat.(variables := vars[1..]), values);
    }
  }
}
