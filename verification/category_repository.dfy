/** Display names of speedrun.com categories, with locally stored aliases
    (src/src/category_repository.rs). */
module CategoryRepository {
  import opened Wrappers
  import opened Src
  import Collections

  /** A row of the category alias table. */
  datatype CategoryAlias = CategoryAlias(
    id: int,
    gameSrcId: string,
    categorySrcId: string,
    alias: string)

  /** Categories keyed by their id; alias texts keyed by the category they rename. */
  datatype Repository = Repository(
    categories: map<string, Category>,
    aliases: map<string, string>)

  /** Categories keyed by id, the later of two with one id winning. */
  function IndexCategories(cs: seq<Category>): (m: map<string, Category>)
    ensures forall i :: 0 <= i < |cs| ==> cs[i].id in m
    ensures forall k :: k in m ==> m[k] in cs && m[k].id == k
  {
    Collections.IndexBy(cs, (c: Category) => c.id)
  }

  /** Alias texts keyed by `category_src_id`, the later of two winning. */
  function IndexAliases(aliases: seq<CategoryAlias>): (m: map<string, string>)
    ensures forall i :: 0 <= i < |aliases| ==> aliases[i].categorySrcId in m
    ensures forall k :: k in m ==>
      exists a :: a in aliases && a.categorySrcId == k && m[k] == a.alias
  {
    var byCategory := Collections.IndexBy(aliases, (a: CategoryAlias) => a.categorySrcId);
    map k | k in byCategory :: byCategory[k].alias
  }

  /** `CategoriesRepository::new`. */
  function New(cs: seq<Category>, aliases: seq<CategoryAlias>): (r: Repository)
    ensures r.categories == IndexCategories(cs)
    ensures r.aliases == IndexAliases(aliases)
  {
    Repository(IndexCategories(cs), IndexAliases(aliases))
  }

  /** The value a run chose for one variable, when the run has a value for it and
      the variable knows that value id. */
  function ChosenValue(v: Variable, values: map<string, string>): Option<(string, Value)>
  {
    if v.id in values && values[v.id] in v.values then Some((values[v.id], v.values[values[v.id]]))
    else None
  }

  /** The search loop of `subcategory`: the first variable flagged as a
      subcategory decides; later variables are never looked at. */
  function FirstSubcategory(vars: seq<Variable>, values: map<string, string>): (r: Option<(string, Value)>)
    ensures (forall i :: 0 <= i < |vars| ==> !vars[i].isSubcategory) ==> r == None
    ensures forall i :: (0 <= i < |vars| && vars[i].isSubcategory &&
      forall j :: 0 <= j < i ==> !vars[j].isSubcategory) ==> r == ChosenValue(vars[i], values)
  {
    if vars == [] then None
    else if vars[0].isSubcategory then ChosenValue(vars[0], values)
    else
      var r := FirstSubcategory(vars[1..], values);
      assert forall i :: 1 <= i < |vars| ==> vars[i] == vars[1..][i - 1];
      r
  }

  /** `subcategory`: the id and value the run chose for the category's first
      subcategory variable. */
  function Subcategory(category: Category, values: map<string, string>): Option<(string, Value)>
  {
    FirstSubcategory(category.variables, values)
  }

  /** `subcategory_name`: the label of that value. */
  function SubcategoryName(category: Category, values: map<string, string>): (r: Option<string>)
    ensures r.Some? <==> Subcategory(category, values).Some?
    ensures r.Some? ==> r.value == Subcategory(category, values).value.1.labelText
  {
    match Subcategory(category, values)
    case Some((_, v)) => Some(v.labelText)
    case None => None
  }

  /** `_category_nice_name`: the alias registered for the category, else its own name. */
  function NiceName(repo: Repository, category: Category): (r: string)
    ensures category.id in repo.aliases ==> r == repo.aliases[category.id]
    ensures category.id !in repo.aliases ==> r == category.name
  {
    if category.id in repo.aliases then repo.aliases[category.id] else category.name
  }

  /** `category_name`: unknown categories have no name; otherwise the nice name,
      preceded by the subcategory label and one space when there is one. */
  function CategoryName(repo: Repository, categoryId: string, values: map<string, string>): (r: Option<string>)
    ensures r.None? <==> categoryId !in repo.categories
    ensures r.Some? ==>
      var cat := repo.categories[categoryId];
      match SubcategoryName(cat, values)
      case Some(sc) => r.value == sc + " " + NiceName(repo, cat)
      case None => r.value == NiceName(repo, cat)
  {
    if categoryId !in repo.categories then None
    else
      var cat := repo.categories[categoryId];
      var catName := NiceName(repo, cat);
      match SubcategoryName(cat, values)
      case Some(sc) => Some(sc + " " + catName)
      case None => Some(catName)
  }

  /** `category_name_from_run`. */
  function CategoryNameFromRun(repo: Repository, run: SRCRun): (r: Option<string>)
    ensures r == CategoryName(repo, run.category, run.values)
  {
    CategoryName(repo, run.category, run.values)
  }

  /** Whatever the subcategory, a known category's display name ends with its
      nice name. */
  lemma CategoryNameEndsWithNiceName(repo: Repository, categoryId: string, values: map<string, string>)
    requires categoryId in repo.categories
    ensures var r := CategoryName(repo, categoryId, values).value;
      var nice := NiceName(repo, repo.categories[categoryId]);
      |nice| <= |r| && r[|r| - |nice|..] == nice
  {
  }

  /** In a repository built by `New`, the nice name is the text of the last alias
      row registered for the category, or the category's name when there is none. */
  lemma {:induction false} NiceNameOfNew(cs: seq<Category>, aliases: seq<CategoryAlias>, c: Category)
    ensures (forall i :: 0 <= i < |aliases| ==> aliases[i].categorySrcId != c.id) ==>
      NiceName(New(cs, aliases), c) == c.name
    ensures forall i :: (0 <= i < |aliases| && aliases[i].categorySrcId == c.id &&
      forall j :: i < j < |aliases| ==> aliases[j].categorySrcId != c.id) ==>
      NiceName(New(cs, aliases), c) == aliases[i].alias
  {
    var key := (a: CategoryAlias) => a.categorySrcId;
    var byCategory := Collections.IndexBy(aliases, key);
    var repo := New(cs, aliases);
    forall i | 0 <= i < |aliases| && aliases[i].categorySrcId == c.id &&
      (forall j :: i < j < |aliases| ==> aliases[j].categorySrcId != c.id)
      ensures NiceName(repo, c) == aliases[i].alias
    {
      Collections.IndexByLastWins(aliases, key, i);
    }
  }

  /** The repository's own test: with one alias registered for "asdf", the known
      category shows the alias and another category shows its own name. */
  lemma NiceNameTestCase()
    ensures var known := Category("asdf", "my coool category", []);
      var unknown := Category("lolz", "oh noes", []);
      var alias := CategoryAlias(0, "irrelevant", "asdf", "even cooler alias!");
      var repo := New([known], [alias]);
      NiceName(repo, known) == "even cooler alias!" && NiceName(repo, unknown) == "oh noes"
  {
    var alias := CategoryAlias(0, "irrelevant", "asdf", "even cooler alias!");
    NiceNameOfNew([Category("asdf", "my coool category", [])], [alias], Category("asdf", "my coool category", []));
    NiceNameOfNew([Category("asdf", "my coool category", [])], [alias], Category("lolz", "oh noes", []));
  }
}
