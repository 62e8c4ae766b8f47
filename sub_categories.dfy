/**
 * The sub-category slice: an ordered table of sub-categories plus three
 * scratch fields the views use (a loading flag, an error message, a selected
 * sub-category). A sub-category names its parent by `categoryId`, a plain
 * value that no reducer checks against the category slice.
 * `Reduce` is the slice's reducer on state values; `SubCategorySlice` is the
 * state the reducers change in place, one method per reducer, each proved to
 * leave the state that `Reduce` computes.
 */
module SubCategories {
  import opened Table

  datatype SubCategory = SubCategory(
    id: string,
    name: string,
    description: string,
    categoryId: string,
    isActive: bool,
    createdAt: string,
    updatedAt: string)

  /** The id a sub-category is looked up by. */
  function Key(c: SubCategory): string { c.id }

  datatype SubCategoryState = SubCategoryState(
    subCategories: seq<SubCategory>,
    loading: bool,
    error: Option<string>,
    selectedSubCategory: Option<SubCategory>)

  const InitialState := SubCategoryState([], false, None, None)

  /**
   * The slice's actions. `now` is the time the reducer reads from the clock
   * to stamp `updatedAt`.
   */
  datatype Action =
    | SetSubCategories(list: seq<SubCategory>)
    | AddSubCategory(subCategory: SubCategory)
    | UpdateSubCategory(subCategory: SubCategory)
    | DeleteSubCategory(id: string)
    | ToggleSubCategoryStatus(id: string, now: string)
    | SetSelectedSubCategory(selected: Option<SubCategory>)
    | SetLoading(loading: bool)
    | SetError(error: Option<string>)

  /** The change `toggleSubCategoryStatus` makes to the record it finds. */
  function Toggle(now: string): (r: SubCategory -> SubCategory)
    ensures forall c: SubCategory :: r(c).updatedAt == now && r(c).isActive != c.isActive
  {
    (c: SubCategory) => c.(isActive := !c.isActive, updatedAt := now)
  }

  /**
   * The slice's reducer. Each scratch field changes only through its own
   * setter; the table changes only through the table actions, and only
   * the set, add and delete actions change its length or the id held at a
   * position.
   */
  function Reduce(s: SubCategoryState, a: Action): (r: SubCategoryState)
    ensures !a.SetLoading? ==> r.loading == s.loading
    ensures !a.SetError? ==> r.error == s.error
    ensures !a.SetSelectedSubCategory? ==> r.selectedSubCategory == s.selectedSubCategory
    ensures a.SetSelectedSubCategory? || a.SetLoading? || a.SetError? ==> r.subCategories == s.subCategories
    ensures !a.SetSubCategories? && !a.AddSubCategory? && !a.DeleteSubCategory? ==>
      |r.subCategories| == |s.subCategories| &&
      forall j :: 0 <= j < |s.subCategories| ==> r.subCategories[j].id == s.subCategories[j].id
  {
    match a
    case SetSubCategories(list) => s.(subCategories := list)
    case AddSubCategory(c) => s.(subCategories := s.subCategories + [c])
    case UpdateSubCategory(c) => s.(subCategories := ReplaceFirst(s.subCategories, Key, c))
    case DeleteSubCategory(id) => s.(subCategories := RemoveAll(s.subCategories, Key, id))
    case ToggleSubCategoryStatus(id, now) =>
      s.(subCategories := UpdateFirst(s.subCategories, Key, id, Toggle(now)))
    case SetSelectedSubCategory(c) => s.(selectedSubCategory := c)
    case SetLoading(b) => s.(loading := b)
    case SetError(e) => s.(error := e)
  }

  class SubCategorySlice {
    var subCategories: seq<SubCategory>
    var loading: bool
    var error: Option<string>
    var selectedSubCategory: Option<SubCategory>

    function State(): SubCategoryState
      reads this
    {
      SubCategoryState(subCategories, loading, error, selectedSubCategory)
    }

    constructor ()
      ensures State() == InitialState
    {
      subCategories, loading, error, selectedSubCategory := [], false, None, None;
    }

    method SetSubCategories(list: seq<SubCategory>)
      modifies this
      ensures State() == Reduce(old(State()), Action.SetSubCategories(list))
    {
      subCategories := list;
    }

    method AddSubCategory(subCategory: SubCategory)
      modifies this
      ensures State() == Reduce(old(State()), Action.AddSubCategory(subCategory))
    {
      subCategories := subCategories + [subCategory];
    }

    method UpdateSubCategory(subCategory: SubCategory)
      modifies this
      ensures State() == Reduce(old(State()), Action.UpdateSubCategory(subCategory))
    {
      var index := FirstIndex(subCategories, Key, subCategory.id);
      if index.Some? {
        subCategories := subCategories[index.value := subCategory];
      }
    }

    method DeleteSubCategory(id: string)
      modifies this
      ensures State() == Reduce(old(State()), Action.DeleteSubCategory(id))
    {
      subCategories := RemoveAll(subCategories, Key, id);
    }

    method ToggleSubCategoryStatus(id: string, now: string)
      modifies this
      ensures State() == Reduce(old(State()), Action.ToggleSubCategoryStatus(id, now))
    {
      ghost var before := subCategories;
      var index := FirstIndex(subCategories, Key, id);
      if index.Some? {
        var c := subCategories[index.value];
        subCategories := subCategories[index.value := c.(isActive := !c.isActive, updatedAt := now)];
        assert subCategories[index.value] == Toggle(now)(c);
      }
      UpdateFirstAt(before, Key, id, Toggle(now));
    }

    method SetSelectedSubCategory(selected: Option<SubCategory>)
      modifies this
      ensures State() == Reduce(old(State()), Action.SetSelectedSubCategory(selected))
    {
      selectedSubCategory := selected;
    }

    method SetLoading(b: bool)
      modifies this
      ensures State() == Reduce(old(State()), Action.SetLoading(b))
    {
      loading := b;
    }

    method SetError(e: Option<string>)
      modifies this
      ensures State() == Reduce(old(State()), Action.SetError(e))
    {
      error := e;
    }
  }

  /** `setSubCategories` replaces the table verbatim; the scratch fields stay. */
  lemma SetSubCategoriesReplaces(s: SubCategoryState, list: seq<SubCategory>)
    ensures var r := Reduce(s, SetSubCategories(list));
      r.subCategories == list &&
      r.loading == s.loading && r.error == s.error && r.selectedSubCategory == s.selectedSubCategory
  {
  }

  /**
   * `addSubCategory` appends the payload as given, whatever its `categoryId`
   * names, and without a duplicate check: the table grows by one,
   * the earlier records stay, and if the id was already present, lookups of it
   * still stop at the earlier record.
   */
  lemma AddSubCategoryAppends(s: SubCategoryState, c: SubCategory)
    ensures var r := Reduce(s, AddSubCategory(c));
      |r.subCategories| == |s.subCategories| + 1 &&
      r.subCategories[..|s.subCategories|] == s.subCategories &&
      r.subCategories[|s.subCategories|] == c &&
      r.loading == s.loading && r.error == s.error && r.selectedSubCategory == s.selectedSubCategory
    ensures var r := Reduce(s, AddSubCategory(c));
      FirstIndex(r.subCategories, Key, c.id) ==
        if FirstIndex(s.subCategories, Key, c.id).Some? then FirstIndex(s.subCategories, Key, c.id)
        else Some(|s.subCategories|)
  {
    FirstIndexAppend(s.subCategories, Key, c, c.id);
  }

  /**
   * `updateSubCategory` replaces the first record with the payload's id by the
   * payload as a whole, its `categoryId` included, and changes no other
   * position; with the id absent nothing changes.
   */
  lemma UpdateSubCategoryReplacesFirst(s: SubCategoryState, c: SubCategory)
    ensures var r := Reduce(s, UpdateSubCategory(c));
      |r.subCategories| == |s.subCategories| &&
      r.loading == s.loading && r.error == s.error && r.selectedSubCategory == s.selectedSubCategory
    ensures Absent(s.subCategories, Key, c.id) ==> Reduce(s, UpdateSubCategory(c)) == s
    ensures FirstIndex(s.subCategories, Key, c.id).Some? ==>
      var i := FirstIndex(s.subCategories, Key, c.id).value;
      var r := Reduce(s, UpdateSubCategory(c));
      r.subCategories[i] == c &&
      forall j :: 0 <= j < |s.subCategories| && j != i ==> r.subCategories[j] == s.subCategories[j]
  {
    UpdateFirstAt(s.subCategories, Key, c.id, _ => c);
  }

  /**
   * `deleteSubCategory` keeps exactly the records with another id, in order; it
   * changes nothing exactly when the id is absent, and deleting twice is
   * deleting once.
   */
  lemma DeleteSubCategoryFilters(s: SubCategoryState, id: string)
    ensures var r := Reduce(s, DeleteSubCategory(id));
      r.subCategories == RemoveAll(s.subCategories, Key, id) &&
      Absent(r.subCategories, Key, id) &&
      r.loading == s.loading && r.error == s.error && r.selectedSubCategory == s.selectedSubCategory
    ensures Reduce(s, DeleteSubCategory(id)) == s <==> Absent(s.subCategories, Key, id)
    ensures Reduce(Reduce(s, DeleteSubCategory(id)), DeleteSubCategory(id)) == Reduce(s, DeleteSubCategory(id))
  {
    RemoveAllUnchanged(s.subCategories, Key, id);
    RemoveAllIdempotent(s.subCategories, Key, id);
  }

  /**
   * `toggleSubCategoryStatus` flips `isActive` and stamps `updatedAt` on the
   * first record with the id only; with the id absent nothing changes.
   */
  lemma ToggleSubCategoryStatusFirstOnly(s: SubCategoryState, id: string, now: string)
    ensures var r := Reduce(s, ToggleSubCategoryStatus(id, now));
      |r.subCategories| == |s.subCategories| &&
      r.loading == s.loading && r.error == s.error && r.selectedSubCategory == s.selectedSubCategory
    ensures Absent(s.subCategories, Key, id) ==> Reduce(s, ToggleSubCategoryStatus(id, now)) == s
    ensures FirstIndex(s.subCategories, Key, id).Some? ==>
      var i := FirstIndex(s.subCategories, Key, id).value;
      var r := Reduce(s, ToggleSubCategoryStatus(id, now));
      r.subCategories[i].isActive == !s.subCategories[i].isActive &&
      r.subCategories[i] == s.subCategories[i].(isActive := r.subCategories[i].isActive, updatedAt := now) &&
      forall j :: 0 <= j < |s.subCategories| && j != i ==> r.subCategories[j] == s.subCategories[j]
  {
    UpdateFirstAt(s.subCategories, Key, id, Toggle(now));
  }

  /**
   * Toggling the same id twice restores `isActive`: the only trace left is
   * the second time stamp on the first record with the id.
   */
  lemma ToggleSubCategoryStatusTwice(s: SubCategoryState, id: string, t1: string, t2: string)
    ensures Absent(s.subCategories, Key, id) ==>
      Reduce(Reduce(s, ToggleSubCategoryStatus(id, t1)), ToggleSubCategoryStatus(id, t2)) == s
    ensures FirstIndex(s.subCategories, Key, id).Some? ==>
      var i := FirstIndex(s.subCategories, Key, id).value;
      Reduce(Reduce(s, ToggleSubCategoryStatus(id, t1)), ToggleSubCategoryStatus(id, t2)) ==
        s.(subCategories := s.subCategories[i := s.subCategories[i].(updatedAt := t2)])
  {
    var stamp := (c: SubCategory) => c.(updatedAt := t2);
    UpdateFirstTwiceIs(s.subCategories, Key, id, Toggle(t1), Toggle(t2), stamp);
    UpdateFirstAt(s.subCategories, Key, id, stamp);
  }

  /**
   * With a duplicated id, update and toggle touch only the first occurrence,
   * while delete removes every occurrence.
   */
  lemma DuplicateIds(s: SubCategoryState, i: int, j: int, c: SubCategory, now: string)
    requires 0 <= i < j < |s.subCategories|
    requires s.subCategories[i].id == c.id && s.subCategories[j].id == c.id
    ensures Reduce(s, UpdateSubCategory(c)).subCategories[j] == s.subCategories[j]
    ensures Reduce(s, ToggleSubCategoryStatus(c.id, now)).subCategories[j] == s.subCategories[j]
    ensures forall k :: 0 <= k < |Reduce(s, DeleteSubCategory(c.id)).subCategories| ==>
      Reduce(s, DeleteSubCategory(c.id)).subCategories[k].id != c.id
  {
    assert !IsFirstMatch(s.subCategories, Key, c.id, j) by {
      assert Key(s.subCategories[i]) == c.id;
    }
  }

  /** The three scratch setters each assign their own field and nothing else. */
  lemma ScratchSettersTouchOneField(
    s: SubCategoryState, selected: Option<SubCategory>, b: bool, e: Option<string>)
    ensures Reduce(s, SetSelectedSubCategory(selected)) == s.(selectedSubCategory := selected)
    ensures Reduce(s, SetLoading(b)) == s.(loading := b)
    ensures Reduce(s, SetError(e)) == s.(error := e)
  {
  }
}
