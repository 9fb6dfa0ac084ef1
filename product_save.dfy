/**
 * `Product.save` (Products/models.py:67-70): before the row is written, a
 * product whose style code is unset gets one from the generator.
 *
 * "Unset" is Python's falsiness of `self.style_code`: both NULL and "" count.
 * A product saved without a style is therefore given "" and, once a style is
 * attached, receives a generated code on its next save; a non-empty code is
 * never touched again.
 */
module ProductSave {
  import opened Options
  import opened StyleCodes
  import opened Schema

  /** `not self.style_code` (models.py:68). */
  predicate IsUnset(code: Option<string>) {
    code.None? || code.value == ""
  }

  /** The style code a product holds after one save: the rule of models.py:67-69 as a state transition. */
  function SavedStyleCode(code: Option<string>, style: Option<StyleId>, draws: Draws): (next: Option<string>)
    ensures !IsUnset(code) ==> next == code
    ensures IsUnset(code) && style.Some? ==> next.Some? && IsStyleCode(next.value)
    ensures IsUnset(code) && style.None? ==> next == Some("")
  {
    if IsUnset(code) then Some(GenerateStyleCode(style, draws)) else code
  }

  /** One call of `save`: the style attached at that moment and the picks the generator would make. */
  datatype SaveCall = SaveCall(style: Option<StyleId>, draws: Draws)

  /** The style code after a series of saves, starting from `code`. */
  function SaveAll(code: Option<string>, calls: seq<SaveCall>): Option<string>
    decreases |calls|
  {
    if calls == [] then code
    else SaveAll(SavedStyleCode(code, calls[0].style, calls[0].draws), calls[1..])
  }

  /** Once a code is set, no later save changes it, whatever style is attached then (or none). */
  lemma {:induction false} SetCodeIsFinal(code: Option<string>, calls: seq<SaveCall>)
    requires !IsUnset(code)
    ensures SaveAll(code, calls) == code
    decreases |calls|
  {
    if calls != [] {
      SetCodeIsFinal(SavedStyleCode(code, calls[0].style, calls[0].draws), calls[1..]);
    }
  }

  /** Saves with no style attached turn an unset code into "" and keep it "". */
  lemma {:induction false} StylelessSavesGiveEmptyCode(code: Option<string>, calls: seq<SaveCall>)
    requires IsUnset(code)
    requires |calls| > 0
    requires forall i :: 0 <= i < |calls| ==> calls[i].style.None?
    ensures SaveAll(code, calls) == Some("")
    decreases |calls|
  {
    if |calls| > 1 {
      StylelessSavesGiveEmptyCode(Some(""), calls[1..]);
    }
  }

  /**
   * A product saved any number of times without a style, then saved with one,
   * gets the code generated at that save, and keeps it through every later save.
   */
  lemma {:induction false} FirstStyledSaveAssignsCode(code: Option<string>, calls: seq<SaveCall>, j: nat)
    requires IsUnset(code)
    requires j < |calls| && calls[j].style.Some?
    requires forall i :: 0 <= i < j ==> calls[i].style.None?
    ensures SaveAll(code, calls) == Some(GenerateStyleCode(calls[j].style, calls[j].draws))
    ensures IsStyleCode(SaveAll(code, calls).value)
    decreases j
  {
    var next := SavedStyleCode(code, calls[0].style, calls[0].draws);
    if j == 0 {
      SetCodeIsFinal(next, calls[1..]);
    } else {
      FirstStyledSaveAssignsCode(next, calls[1..], j - 1);
    }
  }

  /** A Product model instance: the fields `save` reads and writes, updated in place. */
  class Product {
    var name: string
    var description: string
    var quantity: nat
    var category: CategoryId
    var subcategory: Option<SubCategoryId>
    var specification: Option<string>
    var size: Option<string>
    var color: Option<string>
    var style: Option<StyleId>
    var styleCode: Option<string>

    /** The instance state handed to `super().save`. */
    function Row(): ProductRow
      reads this
    {
      ProductRow(name, description, quantity, category, subcategory, specification, size, color, style, styleCode)
    }

    /** An instance holding the values of `row`, not yet saved. */
    constructor (row: ProductRow)
      ensures Row() == row
    {
      name, description, quantity := row.name, row.description, row.quantity;
      category, subcategory := row.category, row.subcategory;
      specification, size, color := row.specification, row.size, row.color;
      style, styleCode := row.style, row.styleCode;
    }

    /** `save` (models.py:67-70), up to the call to `super().save`. */
    method Save(draws: Draws)
      modifies this`styleCode
      ensures styleCode == SavedStyleCode(old(styleCode), style, draws)
      ensures Row() == old(Row()).(styleCode := styleCode)
    {
      if IsUnset(styleCode) {
        styleCode := Some(GenerateStyleCode(style, draws));
      }
    }
  }

  /**
   * A product created with a style and no code gets a code T on its first
   * save; with the style then removed, a second save leaves T in place.
   */
  method StyleRemovalKeepsCode(row: ProductRow, vintage: StyleId, first: Draws, second: Draws)
    returns (t: Option<string>, after: Option<string>)
    requires IsUnset(row.styleCode)
    ensures t.Some? && IsStyleCode(t.value)
    ensures after == t
  {
    var p := new Product(row.(style := Some(vintage)));
    p.Save(first);
    t := p.styleCode;
    p.style := None;
    p.Save(second);
    after := p.styleCode;
  }

  /** A product with no style saved twice holds "" after each save. */
  method StylelessProductKeepsEmptyCode(row: ProductRow, first: Draws, second: Draws)
    returns (once: Option<string>, twice: Option<string>)
    requires row.style.None? && IsUnset(row.styleCode)
    ensures once == Some("") && twice == Some("")
  {
    var q := new Product(row);
    q.Save(first);
    once := q.styleCode;
    q.Save(second);
    twice := q.styleCode;
  }

  /**
   * A product saved first without a style holds ""; once a style is attached,
   * its next save generates a code, because "" still counts as unset.
   */
  method LateStyleGetsCode(row: ProductRow, vintage: StyleId, first: Draws, second: Draws)
    returns (before: Option<string>, after: Option<string>)
    requires row.style.None? && IsUnset(row.styleCode)
    ensures before == Some("")
    ensures after.Some? && IsStyleCode(after.value)
  {
    var q := new Product(row);
    q.Save(first);
    before := q.styleCode;
    q.style := Some(vintage);
    q.Save(second);
    after := q.styleCode;
  }
}
