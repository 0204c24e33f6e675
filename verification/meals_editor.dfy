/**
 * The category and ingredient pickers of the meal editor
 * (src/components/meals/meals-editor.tsx).
 */
module MealsEditor {
  import opened Seqs

  /** The ids selected in the meal form. */
  datatype MealForm = MealForm(categories: seq<int>, ingredients: seq<int>)

  predicate Differs(id: int, x: int) { x != id }

  /** `ids.filter((x) => x !== id)`: every occurrence of `id` dropped, the rest in order. */
  function Without(ids: seq<int>, id: int): (r: seq<int>)
    ensures id !in r
    ensures forall x :: x != id ==> (x in r <==> x in ids)
    ensures IsSubsequence(r, ids)
  {
    Filter(ids, x => Differs(id, x))
  }

  /** The list after clicking an id: removed wherever it occurs when selected, appended otherwise. */
  function Toggle(ids: seq<int>, id: int): (r: seq<int>)
    ensures id in r <==> id !in ids
    ensures forall x :: x != id ==> (x in r <==> x in ids)
    ensures id !in ids ==> |r| == |ids| + 1 && r[..|ids|] == ids && r[|ids|] == id
    ensures id in ids ==> IsSubsequence(r, ids)
  {
    if id in ids then Without(ids, id) else ids + [id]
  }

  /** toggleCategory(categoryId). */
  function ToggleCategory(form: MealForm, categoryId: int): (r: MealForm)
    ensures r.ingredients == form.ingredients
    ensures r.categories == Toggle(form.categories, categoryId)
  {
    form.(categories := Toggle(form.categories, categoryId))
  }

  /** toggleIngredient(ingredientId). */
  function ToggleIngredient(form: MealForm, ingredientId: int): (r: MealForm)
    ensures r.categories == form.categories
    ensures r.ingredients == Toggle(form.ingredients, ingredientId)
  {
    form.(ingredients := Toggle(form.ingredients, ingredientId))
  }

  /** removeCategory(categoryId). */
  function RemoveCategory(form: MealForm, categoryId: int): (r: MealForm)
    ensures r.ingredients == form.ingredients
    ensures r.categories == Without(form.categories, categoryId)
  {
    form.(categories := Without(form.categories, categoryId))
  }

  /** removeIngredient(ingredientId). */
  function RemoveIngredient(form: MealForm, ingredientId: int): (r: MealForm)
    ensures r.categories == form.categories
    ensures r.ingredients == Without(form.ingredients, ingredientId)
  {
    form.(ingredients := Without(form.ingredients, ingredientId))
  }

  /** Removing an id that is not selected changes nothing. */
  lemma {:induction false} RemoveAbsentIsNoop(ids: seq<int>, id: int)
    requires id !in ids
    ensures Without(ids, id) == ids
  {
    FilterKeepsAll(ids, x => Differs(id, x));
  }

  /** Removing keeps every occurrence of every other id and no occurrence of the removed one. */
  lemma WithoutCounts(ids: seq<int>, id: int)
    ensures multiset(Without(ids, id)) == multiset(ids)[id := 0]
  {
    FilterCounts(ids, x => Differs(id, x));
  }

  /** Removing twice is removing once. */
  lemma RemoveIdempotent(ids: seq<int>, id: int)
    ensures Without(Without(ids, id), id) == Without(ids, id)
  {
    RemoveAbsentIsNoop(Without(ids, id), id);
  }

  /** Clicking an unselected id twice gives back the original list. */
  lemma {:induction false} ToggleTwiceRestores(ids: seq<int>, id: int)
    requires id !in ids
    ensures Toggle(Toggle(ids, id), id) == ids
  {
    FilterConcat(ids, [id], x => Differs(id, x));
    RemoveAbsentIsNoop(ids, id);
    assert Filter([id], x => Differs(id, x)) == [];
  }

  /** On a selected id, toggling is removing. */
  lemma ToggleSelectedIsRemove(form: MealForm, id: int)
    requires id in form.categories
    ensures ToggleCategory(form, id) == RemoveCategory(form, id)
  {
  }

  lemma WithoutConcat(a: seq<int>, b: seq<int>, id: int)
    ensures Without(a + b, id) == Without(a, id) + Without(b, id)
  {
    FilterConcat(a, b, x => Differs(id, x));
  }

  lemma WithoutItself(id: int)
    ensures Without([id], id) == []
  {
  }

  /** Toggling an id selected once drops just it and leaves the others in their order. */
  lemma {:induction false} ToggleRemovesOnlyIt(before: seq<int>, after: seq<int>, id: int)
    requires id !in before && id !in after
    ensures Toggle(before + [id] + after, id) == before + after
  {
    var ids := before + [id] + after;
    assert ids[|before|] == id;
    calc {
      Toggle(ids, id);
      Without(ids, id);
      { WithoutConcat(before + [id], after, id); }
      Without(before + [id], id) + Without(after, id);
      { WithoutConcat(before, [id], id); WithoutItself(id); }
      Without(before, id) + Without(after, id);
      { RemoveAbsentIsNoop(before, id); RemoveAbsentIsNoop(after, id); }
      before + after;
    }
  }
}
