/** The page that edits one discount: the local copy of it and the copy as
    loaded, whether they differ, and the flags that mark a save or a delete
    in progress. */
module DiscountPage {
  import opened Json

  /** The fields the page edits and compares. */
  const EditedKeys: set<string> := {"title", "category", "discount_percentage", "start_date", "end_date"}

  /** `localData.k !== initialData.k`. */
  predicate Differs(local: Object, initial: Json, k: string)
  {
    Get(local, k) != Field(Some(initial), k)
  }

  /** `hasChanges`: falsy while nothing is loaded (`initialData` is null),
      then whether one of the five fields differs. */
  predicate HasChanges(local: Object, initial: Json)
    ensures HasChanges(local, initial) ==> Truthy(initial)
    ensures HasChanges(local, initial) ==> exists k :: k in EditedKeys && Differs(local, initial, k)
  {
    && Truthy(initial)
    && (|| Differs(local, initial, "title") || Differs(local, initial, "category")
        || Differs(local, initial, "discount_percentage")
        || Differs(local, initial, "start_date") || Differs(local, initial, "end_date"))
  }

  /** The page has changes exactly when something is loaded and one of the
      edited fields strictly differs from it. */
  lemma HasChangesIff(local: Object, initial: Json)
    ensures HasChanges(local, initial) <==>
              Truthy(initial) && exists k :: k in EditedKeys && Differs(local, initial, k)
  {
    if Truthy(initial) && exists k :: k in EditedKeys && Differs(local, initial, k) {
      var k :| k in EditedKeys && Differs(local, initial, k);
      assert k == "title" || k == "category" || k == "discount_percentage" || k == "start_date" || k == "end_date";
    }
  }

  /** Nothing loaded, nothing to save. */
  lemma NothingLoadedNoChanges(local: Object)
    ensures !HasChanges(local, Null)
  {
  }

  /** Right after loading, the local copy is the loaded one: no changes. */
  lemma FreshCopyHasNoChanges(data: Object)
    ensures !HasChanges(data, Obj(data))
  {
  }

  /** Editing a field to a value other than the loaded one makes a change
      appear. */
  lemma EditMakesChange(local: Object, data: Object, name: string, value: string)
    requires name in EditedKeys && Get(data, name) != Some(Str(value))
    ensures HasChanges(local[name := Str(value)], Obj(data))
  {
    assert Differs(local[name := Str(value)], Obj(data), name);
    HasChangesIff(local[name := Str(value)], Obj(data));
  }

  /** One `updateDiscount(id, localData)` call. */
  datatype Update = Update(id: string, data: Object)

  class Page {
    /** The discount id from the route. */
    const id: string
    var localData: Object
    var initialData: Json
    var isSubmitting: bool
    var isDeleting: bool
    /** The calls of `updateDiscount` and the ids handed to `deleteDiscount`. */
    var updates: seq<Update>
    var deletes: seq<string>

    constructor (id: string)
      ensures localData == map["title" := Str(""), "category" := Str(""), "discount_percentage" := Str(""),
                               "start_date" := Str(""), "end_date" := Str("")]
      ensures this.id == id
      ensures initialData == Null && !isSubmitting && !isDeleting && updates == [] && deletes == []
    {
      this.id := id;
      localData := map["title" := Str(""), "category" := Str(""), "discount_percentage" := Str(""),
                       "start_date" := Str(""), "end_date" := Str("")];
      initialData, isSubmitting, isDeleting, updates, deletes := Null, false, false, [], [];
    }

    /** The load effect: a falsy result leaves the page as it was (it
        navigates away); otherwise both copies become the result. */
    method Loaded(data: Json)
      modifies this
      ensures !Truthy(data) ==> localData == old(localData) && initialData == old(initialData)
      ensures Truthy(data) ==> localData == Spread(Some(data)) && initialData == data
      ensures isSubmitting == old(isSubmitting) && isDeleting == old(isDeleting)
      ensures updates == old(updates) && deletes == old(deletes)
    {
      if Truthy(data) {
        localData := Spread(Some(data));
        initialData := data;
      }
    }

    /** Sets the named field of the local copy and nothing else. */
    method HandleChange(name: string, value: string)
      modifies this
      ensures localData == old(localData)[name := Str(value)]
      ensures initialData == old(initialData) && isSubmitting == old(isSubmitting)
      ensures isDeleting == old(isDeleting) && updates == old(updates) && deletes == old(deletes)
    {
      localData := localData[name := Str(value)];
    }

    /** Saves only when there are changes; `isSubmitting` is off again
        whether the save succeeds or throws. */
    method HandleSubmit()
      modifies this
      ensures !HasChanges(old(localData), old(initialData)) ==>
                updates == old(updates) && isSubmitting == old(isSubmitting)
      ensures HasChanges(old(localData), old(initialData)) ==>
                updates == old(updates) + [Update(id, old(localData))] && !isSubmitting
      ensures localData == old(localData) && initialData == old(initialData)
      ensures isDeleting == old(isDeleting) && deletes == old(deletes)
    {
      if !HasChanges(localData, initialData) {
        return;
      }
      isSubmitting := true;
      updates := updates + [Update(id, localData)];
      isSubmitting := false;
    }

    /** Deletes only after the user confirms; `isDeleting` is off again
        whether the delete succeeds or throws. */
    method HandleDelete(confirmed: bool)
      modifies this
      ensures !confirmed ==> deletes == old(deletes) && isDeleting == old(isDeleting)
      ensures confirmed ==> deletes == old(deletes) + [id] && !isDeleting
      ensures localData == old(localData) && initialData == old(initialData)
      ensures isSubmitting == old(isSubmitting) && updates == old(updates)
    {
      if confirmed {
        isDeleting := true;
        deletes := deletes + [id];
        isDeleting := false;
      }
    }
  }

  /** The save button: `isSubmitting || !hasChanges`. It is enabled only
      while no save runs and something loaded has been edited. */
  predicate SaveDisabled(isSubmitting: bool, local: Object, initial: Json)
    ensures !SaveDisabled(isSubmitting, local, initial) ==> !isSubmitting && Truthy(initial)
    ensures !Truthy(initial) ==> SaveDisabled(isSubmitting, local, initial)
  {
    isSubmitting || !HasChanges(local, initial)
  }
}
