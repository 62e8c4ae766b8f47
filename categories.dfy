/**
 * The category slice: an ordered table of categories plus three scratch
 * fields the views use (a loading flag, an error message, a selected category).
 * `Reduce` is the slice's reducer on state values; `CategorySlice` is the
 * state the reducers change in place, one method per reducer, each proved to
 * leave the state that `Reduce` computes.
 */
module Categories {
  import opened Table

  datatype Category = Category(
    id: string,
    name: string,
    description: string,
    isActive: bool,
    createdAt: string,
    updatedAt: string)

  /** The id a category is looked up by. */
  function Key(c: Category): string { c.id }

  datatype CategoryState = CategoryState(
    categories: seq<Category>,
    loading: bool,
    error: Option<string>,
    selectedCategory: Option<Category>)

  const InitialState := CategoryState([], false, None, None)

  /**
   * The slice's actions. `now` is the time the reducer reads from the clock
   * to stamp `updatedAt`.
   */
  datatype Action =
    | SetCategories(list: seq<Category>)
    | AddCategory(category: Category)
    | UpdateCategory(category: Category)
    | DeleteCategory(id: string)
    | ToggleCategoryStatus(id: string, now: string)
    | SetSelectedCategory(selected: Option<Category>)
    | SetLoading(loading: bool)
    | SetError(error: Option<string>)

  /** The change `toggleCategoryStatus` makes to the record it finds. */
  function Toggle(now: string): (r: Category -> Category)
    ensures forall c: Category :: r(c).updatedAt == now && r(c).isActive != c.isActive
  {
    (c: Category) => c.(isActive := !c.isActive, updatedAt := now)
  }

  /**
   * The slice's reducer. Each scratch field changes only through its own
   * setter; the table changes only through the table actions, and only
   * the set, add and delete actions change its length or the id held at a
   * position.
   */
  function Reduce(s: CategoryState, a: Action): (r: CategoryState)
    ensures !a.SetLoading? ==> r.loading == s.loading
    ensures !a.SetError? ==> r.error == s.error
    ensures !a.SetSelectedCategory? ==> r.selectedCategory == s.selectedCategory
    ensures a.SetSelectedCategory? || a.SetLoading? || a.SetError? ==> r.categories == s.categories
    ensures !a.SetCategories? && !a.AddCategory? && !a.DeleteCategory? ==>
      |r.categories| == |s.categories| &&
      forall j :: 0 <= j < |s.categories| ==> r.categories[j].id == s.categories[j].id
  {
    match a
    case SetCategories(list) => s.(categories := list)
    case AddCategory(c) => s.(categories := s.categories + [c])
    case UpdateCategory(c) => s.(categories := ReplaceFirst(s.categories, Key, c))
    case DeleteCategory(id) => s.(categories := RemoveAll(s.categories, Key, id))
    case ToggleCategoryStatus(id, now) =>
      s.(categories := UpdateFirst(s.categories, Key, id, Toggle(now)))
    case SetSelectedCategory(c) => s.(selectedCategory := c)
    case SetLoading(b) => s.(loading := b)
    case SetError(e) => s.(error := e)
  }

  class CategorySlice {
    var categories: seq<Category>
    var loading: bool
    var error: Option<string>
    var selectedCategory: Option<Category>

    function State(): CategoryState
      reads this
    {
      CategoryState(categories, loading, error, selectedCategory)
    }

    constructor ()
      ensures State() == InitialState
    {
      categories, loading, error, selectedCategory := [], false, None, None;
    }

    method SetCategories(list: seq<Category>)
      modifies this
      ensures State() == Reduce(old(State()), Action.SetCategories(list))
    {
      categories := list;
    }

    method AddCategory(category: Category)
      modifies this
      ensures State() == Reduce(old(State()), Action.AddCategory(category))
    {
      categories := categories + [category];
    }

    method UpdateCategory(category: Category)
      modifies this
      ensures State() == Reduce(old(State()), Action.UpdateCategory(category))
    {
      var index := FirstIndex(categories, Key, category.id);
      if index.Some? {
        categories := categories[index.value := category];
      }
    }

    method DeleteCategory(id: string)
      modifies this
      ensures State() == Reduce(old(State()), Action.DeleteCategory(id))
    {
      categories := RemoveAll(categories, Key, id);
    }

    method ToggleCategoryStatus(id: string, now: string)
      modifies this
      ensures State() == Reduce(old(State()), Action.ToggleCategoryStatus(id, now))
    {
      ghost var before := categories;
      var index := FirstIndex(categories, Key, id);
      if index.Some? {
        var c := categories[index.value];
        categories := categories[index.value := c.(isActive := !c.isActive, updatedAt := now)];
        assert categories[index.value] == Toggle(now)(c);
      }
      UpdateFirstAt(before, Key, id, Toggle(now));
    }

    method SetSelectedCategory(selected: Option<Category>)
      modifies this
      ensures State() == Reduce(old(State()), Action.SetSelectedCategory(selected))
    {
      selectedCategory := selected;
    }

    method SetLoading(b: bool)
      modifies this
      ensures State() == Reduce(old(State()), Action.SetLoading(b))
    {
      loading := b;
    }

    method SetError(e: Option<string>)
      modifies this
      ensures State() == Reduce(old(State()), Action.SetError(e))
    {
      error := e;
    }
  }

  /** `setCategories` replaces the table verbatim; the scratch fields stay. */
  lemma SetCategoriesReplaces(s: CategoryState, list: seq<Category>)
    ensures var r := Reduce(s, SetCategories(list));
      r.categories == list &&
      r.loading == s.loading && r.error == s.error && r.selectedCategory == s.selectedCategory
  {
  }

  /**
   * `addCategory` appends without a duplicate check: the table grows by one,
   * the earlier records stay, and if the id was already present, lookups of it
   * still stop at the earlier record.
   */
  lemma AddCategoryAppends(s: CategoryState, c: Category)
    ensures var r := Reduce(s, AddCategory(c));
      |r.categories| == |s.categories| + 1 &&
      r.categories[..|s.categories|] == s.categories &&
      r.categories[|s.categories|] == c &&
      r.loading == s.loading && r.error == s.error && r.selectedCategory == s.selectedCategory
    ensures var r := Reduce(s, AddCategory(c));
      FirstIndex(r.categories, Key, c.id) ==
        if FirstIndex(s.categories, Key, c.id).Some? then FirstIndex(s.categories, Key, c.id)
        else Some(|s.categories|)
  {
    FirstIndexAppend(s.categories, Key, c, c.id);
  }

  /**
   * `updateCategory` replaces the first record with the payload's id by the
   * payload and changes no other position; with the id absent nothing changes.
   */
  lemma UpdateCategoryReplacesFirst(s: CategoryState, c: Category)
    ensures var r := Reduce(s, UpdateCategory(c));
      |r.categories| == |s.categories| &&
      r.loading == s.loading && r.error == s.error && r.selectedCategory == s.selectedCategory
    ensures Absent(s.categories, Key, c.id) ==> Reduce(s, UpdateCategory(c)) == s
    ensures FirstIndex(s.categories, Key, c.id).Some? ==>
      var i := FirstIndex(s.categories, Key, c.id).value;
      var r := Reduce(s, UpdateCategory(c));
      r.categories[i] == c &&
      forall j :: 0 <= j < |s.categories| && j != i ==> r.categories[j] == s.categories[j]
  {
    UpdateFirstAt(s.categories, Key, c.id, _ => c);
  }

  /**
   * `deleteCategory` keeps exactly the records with another id, in order; it
   * changes nothing exactly when the id is absent, and deleting twice is
   * deleting once.
   */
  lemma DeleteCategoryFilters(s: CategoryState, id: string)
    ensures var r := Reduce(s, DeleteCategory(id));
      r.categories == RemoveAll(s.categories, Key, id) &&
      Absent(r.categories, Key, id) &&
      r.loading == s.loading && r.error == s.error && r.selectedCategory == s.selectedCategory
    ensures Reduce(s, DeleteCategory(id)) == s <==> Absent(s.categories, Key, id)
    ensures Reduce(Reduce(s, DeleteCategory(id)), DeleteCategory(id)) == Reduce(s, DeleteCategory(id))
  {
    RemoveAllUnchanged(s.categories, Key, id);
    RemoveAllIdempotent(s.categories, Key, id);
  }

  /**
   * `toggleCategoryStatus` flips `isActive` and stamps `updatedAt` on the
   * first record with the id only; with the id absent nothing changes.
   */
  lemma ToggleCategoryStatusFirstOnly(s: CategoryState, id: string, now: string)
    ensures var r := Reduce(s, ToggleCategoryStatus(id, now));
      |r.categories| == |s.categories| &&
      r.loading == s.loading && r.error == s.error && r.selectedCategory == s.selectedCategory
    ensures Absent(s.categories, Key, id) ==> Reduce(s, ToggleCategoryStatus(id, now)) == s
    ensures FirstIndex(s.categories, Key, id).Some? ==>
      var i := FirstIndex(s.categories, Key, id).value;
      var r := Reduce(s, ToggleCategoryStatus(id, now));
      r.categories[i].isActive == !s.categories[i].isActive &&
      r.categories[i] == s.categories[i].(isActive := r.categories[i].isActive, updatedAt := now) &&
      forall j :: 0 <= j < |s.categories| && j != i ==> r.categories[j] == s.categories[j]
  {
    UpdateFirstAt(s.categories, Key, id, Toggle(now));
  }

  /**
   * Toggling the same id twice restores `isActive`: the only trace left is
   * the second time stamp on the first record with the id.
   */
  lemma ToggleCategoryStatusTwice(s: CategoryState, id: string, t1: string, t2: string)
    ensures Absent(s.categories, Key, id) ==>
      Reduce(Reduce(s, ToggleCategoryStatus(id, t1)), ToggleCategoryStatus(id, t2)) == s
    ensures FirstIndex(s.categories, Key, id).Some? ==>
      var i := FirstIndex(s.categories, Key, id).value;
      Reduce(Reduce(s, ToggleCategoryStatus(id, t1)), ToggleCategoryStatus(id, t2)) ==
        s.(categories := s.categories[i := s.categories[i].(updatedAt := t2)])
  {
    var stamp := (c: Category) => c.(updatedAt := t2);
    UpdateFirstTwiceIs(s.categories, Key, id, Toggle(t1), Toggle(t2), stamp);
    UpdateFirstAt(s.categories, Key, id, stamp);
  }

  /**
   * With a duplicated id, update and toggle touch only the first occurrence,
   * while delete removes every occurrence.
   */
  lemma DuplicateIds(s: CategoryState, i: int, j: int, c: Category, now: string)
    requires 0 <= i < j < |s.categories|
    requires s.categories[i].id == c.id && s.categories[j].id == c.id
    ensures Reduce(s, UpdateCategory(c)).categories[j] == s.categories[j]
    ensures Reduce(s, ToggleCategoryStatus(c.id, now)).categories[j] == s.categories[j]
    ensures forall k :: 0 <= k < |Reduce(s, DeleteCategory(c.id)).categories| ==>
      Reduce(s, DeleteCategory(c.id)).categories[k].id != c.id
  {
    assert !IsFirstMatch(s.categories, Key, c.id, j) by {
      assert Key(s.categories[i]) == c.id;
    }
  }

  /** The three scratch setters each assign their own field and nothing else. */
  lemma ScratchSettersTouchOneField(
    s: CategoryState, selected: Option<Category>, b: bool, e: Option<string>)
    ensures Reduce(s, SetSelectedCategory(selected)) == s.(selectedCategory := selected)
    ensures Reduce(s, SetLoading(b)) == s.(loading := b)
    ensures Reduce(s, SetError(e)) == s.(error := e)
  {
  }
}
