# Catalog schema of the Products app, modelled in Dafny

The Products app declares seven models — Category, Style, SubCategory, Product,
ProductAttribute, ProductReview, FavouriteProduct — plus references to the
framework's User table. Two parts of it have behaviour, and this project
models both:

1. **Style-code assignment.** On every save where the code is unset (NULL
   or `""`), `Product.save` sets it to `generate_style_code`: ten characters
   drawn from `string.ascii_letters + string.digits` when a style is
   attached, and `""` otherwise.
2. **Delete policies.** The `on_delete` rules of the foreign keys. CASCADE
   removes the referencing rows. SET_NULL clears the reference and keeps
   the row.

## Layout

- `options.dfy` — `Option`, used for nullable columns.
- `style_codes.dfy` — the alphabet, `IsStyleCode` and `GenerateStyleCode`.
  Randomness is a parameter: each `random.choice` is the index it picks
  (`Draw`, 0..61), and one call of the generator takes ten of them (`Draws`).
  `EveryStyleCodeIsGenerable` proves every valid code can come out, so the
  possible results are exactly the strings satisfying `IsStyleCode`.
- `schema.dfy` — one row datatype per model and the store `Db`, with one map
  per table. `Consistent` is what the relational store guarantees: no foreign
  key names a missing row, and style labels are unique.
- `product_save.dfy` — a `Product` class whose `Save` updates `styleCode` in
  place. Beside it, the same rule as a pure transition (`SavedStyleCode`),
  lemmas about any series of saves, and three client scenarios.
- `deletion.dfy` — each delete as a function on `Db`, given by two things.
  The first is the rows the CASCADE keys drag along (a `Doomed` value,
  proved closed under every CASCADE key). The second is the resulting state
  (`Apply`): those rows are gone, and every SET_NULL reference to them in a
  surviving row is null. The order in which the framework issues its updates
  and deletes is not modelled, only the state they leave. `ApplyPreservesConsistency` and
  `DeletesPreserveConsistency` prove that no delete, and no series of
  deletes, leaves a dangling reference.
- `catalog.dfy` — a `Store` class with one map field per table. Its `Delete*`
  methods update the maps in place and are proved to produce exactly the
  state the corresponding `Deletion` function describes.

### A style attached later does get a code

It is tempting to read the rule as "a code is generated at most once, at the
first save, and a product first saved without a style keeps an empty code for
good". The code does not behave that way. The guard is
`if not self.style_code` (Products/models.py:68), and `""` is falsy in
Python. So a style-less save stores `""`, and the first save after a style is
attached generates a code. The model follows the code; see
`FirstStyledSaveAssignsCode` and `LateStyleGetsCode`. What does hold is that a
non-empty code is never changed again, even when the style is removed.

## Model

| member | source | states |
|---|---|---|
| `StyleCodes.AlphabetLayout` | Products/models.py:63 | The alphabet is Python's `ascii_letters + digits`: 62 characters, a–z, then A–Z, then 0–9. |
| `StyleCodes.AlphabetIsAlphanumeric` | Products/models.py:63 | A character is in the alphabet if and only if it is in `[A-Za-z0-9]`. |
| `StyleCodes.DrawOf` | Products/models.py:64 | Every character of `[A-Za-z0-9]` is what some `random.choice` pick returns. |
| `StyleCodes.GenerateStyleCode` | Products/models.py:60-65 | With a style attached, the result is ten characters of `[A-Za-z0-9]`. Without one, it is `""`. |
| `StyleCodes.EveryStyleCodeIsGenerable` | Products/models.py:62-64 | Every ten-character `[A-Za-z0-9]` string is a possible result when a style is attached. |
| `ProductSave.SavedStyleCode` | Products/models.py:67-69 | One save leaves a set code unchanged. It turns an unset code (`IsUnset`: NULL or `""`, the `not self.style_code` guard at models.py:68) into a valid code when a style is attached, and into `""` when none is. |
| `ProductSave.SetCodeIsFinal` | Products/models.py:67-69 | Once the code is non-empty, no later save changes it, whatever style is attached then, including none. |
| `ProductSave.StylelessSavesGiveEmptyCode` | Products/models.py:61-69 | One or more saves without a style turn an unset code into `""` and keep it `""`. |
| `ProductSave.FirstStyledSaveAssignsCode` | Products/models.py:61-69 | After style-less saves, the first save with a style generates a valid code, and every later save keeps it. |
| `ProductSave.Product.Save` | Products/models.py:67-70 | The instance's code becomes `SavedStyleCode` of its old code and current style. No other field changes. |
| `ProductSave.StyleRemovalKeepsCode` | Products/models.py:67-69 | A product saved with a style gets a code T. With the style then set to null, a second save leaves T. |
| `ProductSave.StylelessProductKeepsEmptyCode` | Products/models.py:61-69 | A product with no style, saved twice, holds `""` after each save. |
| `ProductSave.LateStyleGetsCode` | Products/models.py:61-69 | A product saved without a style holds `""`. Its next save after a style is attached stores a valid code. |
| `Deletion.Apply` | Products/models.py:12-96 | After a delete, each table's surviving keys are its old keys minus the removed ones, and the user set loses exactly the removed users. |
| `Deletion.ApplyKeepsSurvivors` | Products/models.py:12-53 | A surviving category loses `parent_category` exactly when it named a removed category, and a surviving product loses `style` exactly when it named a removed style. Nothing else in a surviving row of any table changes. |
| `Deletion.ProductCascade` | Products/models.py:76-96 | Deleting a set of products removes those products and is closed under the three keys that point at a product: every attribute, review and favourite referencing one of them goes too. Nothing in the category, style, subcategory or user tables is removed. |
| `Deletion.ProductCascadeIsLeast` | Products/models.py:76-96 | The product cascade removes nothing it need not: every removal of those products that is closed under the same three keys contains its attributes, reviews and favourites. |
| `Deletion.ApplyPreservesConsistency` | Products/models.py:12-96 | Removing a set of rows closed under the CASCADE keys, with SET_NULL references to them nulled, leaves no dangling reference and keeps style labels unique. |
| `Deletion.ProductCollect` | Products/models.py:76-96 | The rows a product delete collects are closed under every CASCADE key. |
| `Deletion.SubCategoryCollect` | Products/models.py:48 | The rows a subcategory delete collects are closed under every CASCADE key. |
| `Deletion.CategoryCollect` | Products/models.py:32-48 | The rows a category delete collects are closed under every CASCADE key. |
| `Deletion.UserCollect` | Products/models.py:84-95 | The rows a user delete collects are closed under every CASCADE key. |
| `Deletion.DeleteStyle` | Products/models.py:53 | Only the style goes. Every product that used it survives with `style` nulled and its style code and other fields unchanged. No other table changes. |
| `Deletion.DeleteCategory` | Products/models.py:12-48 | Its subcategories go, and so does every product in the category directly or through one of those subcategories, along with those products' attributes, reviews and favourites. Child categories survive with only `parent_category` nulled. Everything else is unchanged, and consistency is kept. |
| `Deletion.DeleteSubCategory` | Products/models.py:48 | Exactly the products filed under the subcategory go, with their dependents. Other tables are unchanged, and consistency is kept. |
| `Deletion.DeleteProduct` | Products/models.py:76-96 | Exactly the product's attributes, reviews and favourites go with it. Other tables are unchanged, and consistency is kept. |
| `Deletion.DeleteUser` | Products/models.py:84-95 | Exactly the user's reviews and favourites go. Products and catalog tables are unchanged, and consistency is kept. |
| `Deletion.DeleteAttribute` | Products/models.py:73-76 | Only that attribute row goes. Nothing references it, so every other table is unchanged. |
| `Deletion.DeleteReview` | Products/models.py:82-84 | Only that review row goes. Every other table is unchanged. |
| `Deletion.DeleteFavourite` | Products/models.py:94-96 | Only that favourite row goes. Every other table is unchanged. |
| `Deletion.DeletesPreserveConsistency` | Products/models.py:12-96 | After any series of deletes on a consistent store, no surviving row holds a dangling reference. |
| `Catalog.Store.DeleteCollected` | Products/models.py:12-96 | Removing the collected rows table by table and nulling the SET_NULL references to them yields exactly `Deletion.Apply`. |
| `Catalog.Store.DeleteCategory` | Products/models.py:12-48 | The in-place delete keeps the store consistent and leaves it equal to `Deletion.DeleteCategory` of the old state. |
| `Catalog.Store.DeleteStyle` | Products/models.py:53 | The in-place delete keeps the store consistent and equals `Deletion.DeleteStyle`. |
| `Catalog.Store.DeleteSubCategory` | Products/models.py:48 | The in-place delete keeps the store consistent and equals `Deletion.DeleteSubCategory`. |
| `Catalog.Store.DeleteProduct` | Products/models.py:76-96 | The in-place delete keeps the store consistent and equals `Deletion.DeleteProduct`. |
| `Catalog.Store.DeleteAttribute` | Products/models.py:73-76 | The in-place delete keeps the store consistent and equals `Deletion.DeleteAttribute`. |
| `Catalog.Store.DeleteReview` | Products/models.py:82-84 | The in-place delete keeps the store consistent and equals `Deletion.DeleteReview`. |
| `Catalog.Store.DeleteFavourite` | Products/models.py:94-96 | The in-place delete keeps the store consistent and equals `Deletion.DeleteFavourite`. |
| `Catalog.Store.DeleteUser` | Products/models.py:84-95 | The in-place delete keeps the store consistent and equals `Deletion.DeleteUser`. |

## Left out

- The distribution of `random.choice` and any uniqueness of style codes (models.py:54, 64): the generator is modelled only as "some string the ten picks spell". No uniqueness is assumed, because the column declares none.
- ProductSave.Product.Save: a style counts as attached whenever its id is not null. The lookup at models.py:61 raises `Style.DoesNotExist` when the id names no row and no Style object is cached, and `save` then stops before assigning a code; that error path is not modelled, because the instance holds only the id and the framework's related-object lookup is not part of this model.
- StyleCodes.GenerateStyleCode: for the same reason, `Some(id)` is treated as an attached style even when `id` names no Style row; the `DoesNotExist` raised by `self.style` (models.py:61) is not modelled.
- `super().save` and all persistence (models.py:70): the row is not written anywhere. `Product.Row` is the instance state handed to that call. The arguments `save` passes on (models.py:67, 70) are not modelled; with `update_fields` that omit `style_code`, the new code would be set in memory but not written.
- Creating and updating rows, including the store rejecting an insert whose foreign key names a missing row: the model starts from any consistent store and covers only deletes.
- `Product.price` (models.py:45): a `DecimalField`; no arithmetic depends on it.
- Image fields (models.py:11, 49, 88) and the `auto_now_add` timestamps (models.py:87, 97): file storage and the clock.
- `max_length` and the other field validation done by the framework.
- `Meta` verbose names and every `__str__`: display only.
- The User model itself: it belongs to the framework, so only the set of user ids is kept.
- Cycles in `Category.parent_category`: the schema does not prevent them, and the model does not either.
