// Product Category: an empty category code is drawn from the naming series
// `PCAT-.#####`, a code is unique among the other categories, and the
// parent chain never comes back to the category.  The stored categories
// are a parameter keyed by name.

module ProductCategoryDoc {
  import opened Common
  import opened Hierarchy

  /** A stored category: its code and its parent ("" for none). */
  datatype StoredCategory = StoredCategory(categoryCode: string, parentCategory: string)

  /** The code the naming series gives for its next `counter` value. */
  function CategorySeriesCode(counter: nat): (r: string)
    ensures IsPrefix("PCAT-", r) && |r| >= 10
  {
    "PCAT-" + FormatPadded(counter, 5)
  }

  /** Distinct counters give distinct codes. */
  lemma CategorySeriesCodesDistinct(a: nat, b: nat)
    ensures CategorySeriesCode(a) == CategorySeriesCode(b) ==> a == b
  {
    if CategorySeriesCode(a) == CategorySeriesCode(b) {
      assert FormatPadded(a, 5) == CategorySeriesCode(a)[5..];
      assert FormatPadded(b, 5) == CategorySeriesCode(b)[5..];
      FormatPaddedValue(a, 5);
      FormatPaddedValue(b, 5);
    }
  }

  /** The stored parent links. */
  function CategoryLinks(stored: map<string, StoredCategory>): (r: map<string, string>)
    ensures r.Keys == stored.Keys
    ensures forall n | n in r :: r[n] == stored[n].parentCategory
  {
    map n | n in stored :: stored[n].parentCategory
  }

  /** Another stored category has the code. */
  predicate CodeInUse(stored: map<string, StoredCategory>, name: string, code: string)
  {
    exists n | n in stored :: n != name && stored[n].categoryCode == code
  }

  const OWN_PARENT: string := "A category cannot be its own parent."
  const CIRCULAR_CATEGORY: string := "Detected circular hierarchy for Product Category."

  /** The checks of `validate`, in order. */
  function CategoryError(stored: map<string, StoredCategory>, name: string, code: string, parent: string): Option<string>
  {
    if code != "" && CodeInUse(stored, name, code) then Some("Category code " + code + " is already in use.")
    else if parent == "" then None
    else if parent == name then Some(OWN_PARENT)
    else if Walk(CategoryLinks(stored), {name}, parent) then Some(CIRCULAR_CATEGORY)
    else None
  }

  /**
   * A category passes exactly when no other category has its (non-empty)
   * code and, when it has a parent, the parent is not itself and the chain
   * from the parent comes back to no name it has passed.
   */
  lemma CategoryErrorMeans(stored: map<string, StoredCategory>, name: string, code: string, parent: string)
    ensures CategoryError(stored, name, code, parent).None? <==>
      (code != "" ==> forall n | n in stored && n != name :: stored[n].categoryCode != code)
      && (parent != "" ==> parent != name && !Revisits(CategoryLinks(stored), {name}, parent))
  {
    if parent != "" {
      WalkMeans(CategoryLinks(stored), {name}, parent);
    }
  }

  /** A category that passes is no ancestor of itself. */
  lemma PassingCategoryNotOwnAncestor(stored: map<string, StoredCategory>, name: string, code: string, parent: string, j: nat)
    requires name != "" && parent != ""
    requires CategoryError(stored, name, code, parent).None?
    ensures Iter(CategoryLinks(stored), parent, j) != name
  {
    CategoryErrorMeans(stored, name, code, parent);
    assert Iter(CategoryLinks(stored), parent, j) == name ==> HitAt(CategoryLinks(stored), {name}, parent, j);
  }

  class ProductCategory {
    var name: string
    var categoryCode: string
    var parentCategory: string

    /** `before_insert`: an empty code is drawn from the series; returns the series' new counter. */
    method BeforeInsert(counter: nat) returns (next: nat)
      modifies this`categoryCode
      ensures old(categoryCode) != "" ==> categoryCode == old(categoryCode) && next == counter
      ensures old(categoryCode) == "" ==> categoryCode == CategorySeriesCode(counter + 1) && next == counter + 1
    {
      next := counter;
      if categoryCode == "" {
        next := counter + 1;
        categoryCode := CategorySeriesCode(next);
      }
    }

    /** `validate`: the code check, then the parent walk done step by step. */
    method Validate(stored: map<string, StoredCategory>) returns (err: Option<string>)
      ensures err == CategoryError(stored, name, categoryCode, parentCategory)
    {
      if categoryCode != "" && CodeInUse(stored, name, categoryCode) {
        return Some("Category code " + categoryCode + " is already in use.");
      }
      if parentCategory == "" {
        return None;
      }
      if parentCategory == name {
        return Some(OWN_PARENT);
      }
      var cyclic := DetectCycle(CategoryLinks(stored), name, parentCategory);
      WalkMeans(CategoryLinks(stored), {name}, parentCategory);
      err := if cyclic then Some(CIRCULAR_CATEGORY) else None;
    }
  }
}
