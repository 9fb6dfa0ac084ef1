/**
 * The tables of Products/models.py as values: one row datatype per model and
 * one map per table from primary key to row. Only the columns that matter to
 * the foreign keys and to the style-code rule are kept (see README.md).
 */
module Schema {
  import opened Options

  type CategoryId = nat
  type StyleId = nat
  type SubCategoryId = nat
  type ProductId = nat
  type AttributeId = nat
  type ReviewId = nat
  type FavouriteId = nat
  /** A row of the framework's `auth.User` table, which is not part of this model. */
  type UserId = nat

  /** Category (models.py:9-13); `parent_category` is nullable, SET_NULL. */
  datatype CategoryRow = CategoryRow(name: string, parent: Option<CategoryId>, description: Option<string>)

  /** Style (models.py:23-24); the label is unique. */
  datatype StyleRow = StyleRow(style: string)

  /** SubCategory (models.py:30-32); `parent_category` is mandatory, CASCADE. */
  datatype SubCategoryRow = SubCategoryRow(name: string, parent: CategoryId)

  /** Product (models.py:42-54), without the price and the image. */
  datatype ProductRow = ProductRow(
    name: string,
    description: string,
    quantity: nat,
    category: CategoryId,
    subcategory: Option<SubCategoryId>,
    specification: Option<string>,
    size: Option<string>,
    color: Option<string>,
    style: Option<StyleId>,
    styleCode: Option<string>)

  /** ProductAttribute (models.py:73-76). */
  datatype AttributeRow = AttributeRow(attributeType: string, attributeValue: string, product: ProductId)

  /** ProductReview (models.py:82-86), without the date and the image. */
  datatype ReviewRow = ReviewRow(product: ProductId, user: UserId, rating: nat, reviewText: string)

  /** FavouriteProduct (models.py:94-96), without the date. */
  datatype FavouriteRow = FavouriteRow(user: UserId, product: ProductId)

  /** The whole store: one table per model, plus the set of users that exist. */
  datatype Db = Db(
    categories: map<CategoryId, CategoryRow>,
    styles: map<StyleId, StyleRow>,
    subcategories: map<SubCategoryId, SubCategoryRow>,
    products: map<ProductId, ProductRow>,
    attributes: map<AttributeId, AttributeRow>,
    reviews: map<ReviewId, ReviewRow>,
    favourites: map<FavouriteId, FavouriteRow>,
    users: set<UserId>)

  /** The store with no rows at all. */
  const EmptyDb: Db := Db(map[], map[], map[], map[], map[], map[], map[], {})

  /** A nullable reference is either null or names a key of `keys`. */
  predicate RefersInto<K>(ref: Option<K>, keys: set<K>) {
    ref.None? || ref.value in keys
  }

  /** No foreign key of any row names a row that does not exist. */
  ghost predicate NoDanglingReferences(db: Db) {
    && (forall c :: c in db.categories ==> RefersInto(db.categories[c].parent, db.categories.Keys))
    && (forall s :: s in db.subcategories ==> db.subcategories[s].parent in db.categories)
    && (forall p :: p in db.products ==> db.products[p].category in db.categories)
    && (forall p :: p in db.products ==> RefersInto(db.products[p].subcategory, db.subcategories.Keys))
    && (forall p :: p in db.products ==> RefersInto(db.products[p].style, db.styles.Keys))
    && (forall a :: a in db.attributes ==> db.attributes[a].product in db.products)
    && (forall r :: r in db.reviews ==> db.reviews[r].product in db.products)
    && (forall r :: r in db.reviews ==> db.reviews[r].user in db.users)
    && (forall f :: f in db.favourites ==> db.favourites[f].product in db.products)
    && (forall f :: f in db.favourites ==> db.favourites[f].user in db.users)
  }

  /** `Style.style` is unique (models.py:24). */
  ghost predicate StyleLabelsUnique(db: Db) {
    forall s, t :: s in db.styles && t in db.styles && db.styles[s].style == db.styles[t].style ==> s == t
  }

  /** What the relational store guarantees of every state it commits. */
  ghost predicate Consistent(db: Db) {
    NoDanglingReferences(db) && StyleLabelsUnique(db)
  }
}
