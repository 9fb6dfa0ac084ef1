/**
 * The `on_delete` policies of Products/models.py as functions on the store.
 *
 * A delete is modelled by two things: the rows the CASCADE foreign keys drag
 * along (a `Doomed` value), and the state it leaves, in which those rows are
 * gone and every SET_NULL reference to one of them held by a surviving row is
 * null. The order in which the framework issues the row updates and deletes
 * is not modelled, only the resulting state.
 * CASCADE: models.py:32, 47, 48, 76, 83, 84, 95, 96. SET_NULL: models.py:12, 53.
 */
module Deletion {
  import opened Options
  import opened Schema

  /** The rows one delete removes, table by table. */
  datatype Doomed = Doomed(
    categories: set<CategoryId>,
    styles: set<StyleId>,
    subcategories: set<SubCategoryId>,
    products: set<ProductId>,
    attributes: set<AttributeId>,
    reviews: set<ReviewId>,
    favourites: set<FavouriteId>,
    users: set<UserId>)

  const Nothing: Doomed := Doomed({}, {}, {}, {}, {}, {}, {}, {})

  /** A nullable reference names one of `keys`. */
  predicate Names<K>(ref: Option<K>, keys: set<K>) {
    ref.Some? && ref.value in keys
  }

  /**
   * Every row whose CASCADE foreign key names a doomed row is doomed too:
   * the collected set is closed under the CASCADE declarations.
   */
  ghost predicate CascadeClosed(db: Db, d: Doomed) {
    && (forall s :: s in db.subcategories && db.subcategories[s].parent in d.categories ==> s in d.subcategories)
    && (forall p :: p in db.products && db.products[p].category in d.categories ==> p in d.products)
    && (forall p :: p in db.products && Names(db.products[p].subcategory, d.subcategories) ==> p in d.products)
    && ProductKeysClosed(db, d)
    && (forall r :: r in db.reviews && db.reviews[r].user in d.users ==> r in d.reviews)
    && (forall f :: f in db.favourites && db.favourites[f].user in d.users ==> f in d.favourites)
  }

  /** SET_NULL on `Category.parent_category` (models.py:12). */
  function Orphaned(c: CategoryRow, gone: set<CategoryId>): CategoryRow {
    if Names(c.parent, gone) then c.(parent := None) else c
  }

  /** SET_NULL on `Product.style` (models.py:53); the style code is left as it is. */
  function Unstyled(p: ProductRow, gone: set<StyleId>): ProductRow {
    if Names(p.style, gone) then p.(style := None) else p
  }

  /** SET_NULL on `parent_category` across a table of categories. */
  function OrphanAll(m: map<CategoryId, CategoryRow>, gone: set<CategoryId>): map<CategoryId, CategoryRow> {
    map k | k in m :: Orphaned(m[k], gone)
  }

  /** SET_NULL on `style` across a table of products. */
  function UnstyleAll(m: map<ProductId, ProductRow>, gone: set<StyleId>): map<ProductId, ProductRow> {
    map k | k in m :: Unstyled(m[k], gone)
  }

  /** The state after a delete: the doomed rows are gone and the survivors' SET_NULL references to them are null. */
  function Apply(db: Db, d: Doomed): (r: Db)
    ensures r.categories.Keys == db.categories.Keys - d.categories
    ensures r.styles.Keys == db.styles.Keys - d.styles
    ensures r.subcategories.Keys == db.subcategories.Keys - d.subcategories
    ensures r.products.Keys == db.products.Keys - d.products
    ensures r.attributes.Keys == db.attributes.Keys - d.attributes
    ensures r.reviews.Keys == db.reviews.Keys - d.reviews
    ensures r.favourites.Keys == db.favourites.Keys - d.favourites
    ensures r.users == db.users - d.users
  {
    Db(
      OrphanAll(db.categories - d.categories, d.categories),
      db.styles - d.styles,
      db.subcategories - d.subcategories,
      UnstyleAll(db.products - d.products, d.styles),
      db.attributes - d.attributes,
      db.reviews - d.reviews,
      db.favourites - d.favourites,
      db.users - d.users)
  }

  /**
   * A surviving row differs from its old row at most in the SET_NULL reference
   * to a removed row: a category's `parent_category`, a product's `style`.
   */
  lemma ApplyKeepsSurvivors(db: Db, d: Doomed)
    ensures var r := Apply(db, d);
      && (forall k :: k in r.categories ==>
            && r.categories[k].parent == (if Names(db.categories[k].parent, d.categories) then None else db.categories[k].parent)
            && r.categories[k].(parent := db.categories[k].parent) == db.categories[k])
      && (forall k :: k in r.products ==>
            && r.products[k].style == (if Names(db.products[k].style, d.styles) then None else db.products[k].style)
            && r.products[k].(style := db.products[k].style) == db.products[k])
      && (forall k :: k in r.styles ==> r.styles[k] == db.styles[k])
      && (forall k :: k in r.subcategories ==> r.subcategories[k] == db.subcategories[k])
      && (forall k :: k in r.attributes ==> r.attributes[k] == db.attributes[k])
      && (forall k :: k in r.reviews ==> r.reviews[k] == db.reviews[k])
      && (forall k :: k in r.favourites ==> r.favourites[k] == db.favourites[k])
  {
  }

  /** Removing a cascade-closed set of rows, with SET_NULL applied, leaves no dangling reference. */
  lemma ApplyPreservesConsistency(db: Db, d: Doomed)
    ensures Consistent(db) && CascadeClosed(db, d) ==> Consistent(Apply(db, d))
  {
    if !(Consistent(db) && CascadeClosed(db, d)) {
      return;
    }
    var r := Apply(db, d);
    CategoriesStayLinked(db, d);
    ProductsStayLinked(db, d);
    DependentsStayLinked(db, d);
    assert StyleLabelsUnique(r) by {
      assert r.styles.Keys <= db.styles.Keys;
      forall s, t | s in r.styles && t in r.styles && r.styles[s].style == r.styles[t].style
        ensures s == t
      {
        assert db.styles[s] == r.styles[s] && db.styles[t] == r.styles[t];
      }
    }
  }

  lemma CategoriesStayLinked(db: Db, d: Doomed)
    requires NoDanglingReferences(db) && CascadeClosed(db, d)
    ensures var r := Apply(db, d);
      && (forall c :: c in r.categories ==> RefersInto(r.categories[c].parent, r.categories.Keys))
      && (forall s :: s in r.subcategories ==> r.subcategories[s].parent in r.categories)
  {
    var r := Apply(db, d);
    forall c | c in r.categories
      ensures RefersInto(r.categories[c].parent, r.categories.Keys)
    {
      assert RefersInto(db.categories[c].parent, db.categories.Keys);
    }
    forall s | s in r.subcategories
      ensures r.subcategories[s].parent in r.categories
    {
      assert db.subcategories[s].parent in db.categories;
    }
  }

  lemma ProductsStayLinked(db: Db, d: Doomed)
    requires NoDanglingReferences(db) && CascadeClosed(db, d)
    ensures var r := Apply(db, d);
      && (forall p :: p in r.products ==> r.products[p].category in r.categories)
      && (forall p :: p in r.products ==> RefersInto(r.products[p].subcategory, r.subcategories.Keys))
      && (forall p :: p in r.products ==> RefersInto(r.products[p].style, r.styles.Keys))
  {
    var r := Apply(db, d);
    forall p | p in r.products
      ensures r.products[p].category in r.categories
    {
      assert r.products[p].category == db.products[p].category;
      assert db.products[p].category in db.categories;
    }
    forall p | p in r.products
      ensures RefersInto(r.products[p].subcategory, r.subcategories.Keys)
    {
      assert r.products[p].subcategory == db.products[p].subcategory;
      assert RefersInto(db.products[p].subcategory, db.subcategories.Keys);
    }
    forall p | p in r.products
      ensures RefersInto(r.products[p].style, r.styles.Keys)
    {
      assert r.products[p] == Unstyled(db.products[p], d.styles);
      assert RefersInto(db.products[p].style, db.styles.Keys);
    }
  }

  lemma DependentsStayLinked(db: Db, d: Doomed)
    requires NoDanglingReferences(db) && CascadeClosed(db, d)
    ensures var r := Apply(db, d);
      && (forall a :: a in r.attributes ==> r.attributes[a].product in r.products)
      && (forall v :: v in r.reviews ==> r.reviews[v].product in r.products && r.reviews[v].user in r.users)
      && (forall f :: f in r.favourites ==> r.favourites[f].product in r.products && r.favourites[f].user in r.users)
  {
    var r := Apply(db, d);
    forall a | a in r.attributes
      ensures r.attributes[a].product in r.products
    {
      assert db.attributes[a].product in db.products;
    }
    forall v | v in r.reviews
      ensures r.reviews[v].product in r.products && r.reviews[v].user in r.users
    {
      assert db.reviews[v].product in db.products && db.reviews[v].user in db.users;
    }
    forall f | f in r.favourites
      ensures r.favourites[f].product in r.products && r.favourites[f].user in r.users
    {
      assert db.favourites[f].product in db.products && db.favourites[f].user in db.users;
    }
  }

  /** A table with nothing doomed in it, and no SET_NULL reference into a doomed row, is left as it was. */
  lemma ApplyFrame(db: Db, d: Doomed)
    ensures d.categories == {} ==> Apply(db, d).categories == db.categories
    ensures d.styles == {} ==> Apply(db, d).styles == db.styles
    ensures d.subcategories == {} ==> Apply(db, d).subcategories == db.subcategories
    ensures d.products == {} && d.styles == {} ==> Apply(db, d).products == db.products
    ensures d.attributes == {} ==> Apply(db, d).attributes == db.attributes
    ensures d.reviews == {} ==> Apply(db, d).reviews == db.reviews
    ensures d.favourites == {} ==> Apply(db, d).favourites == db.favourites
    ensures d.users == {} ==> Apply(db, d).users == db.users
  {
    var r := Apply(db, d);
    if d.categories == {} {
      assert forall k :: k in r.categories ==> r.categories[k] == db.categories[k];
    }
    if d.products == {} && d.styles == {} {
      assert forall k :: k in r.products ==> r.products[k] == db.products[k];
    }
  }

  /**
   * The CASCADE keys that point at a product: `ProductAttribute.product` (76),
   * `ProductReview.product` (83) and `FavouriteProduct.product` (96).
   */
  ghost predicate ProductKeysClosed(db: Db, d: Doomed) {
    && (forall a :: a in db.attributes && db.attributes[a].product in d.products ==> a in d.attributes)
    && (forall r :: r in db.reviews && db.reviews[r].product in d.products ==> r in d.reviews)
    && (forall f :: f in db.favourites && db.favourites[f].product in d.products ==> f in d.favourites)
  }

  /** Products dragged along, with their attributes (76), reviews (83) and favourites (96). */
  function ProductCascade(db: Db, ps: set<ProductId>): (d: Doomed)
    ensures d.products == ps && ProductKeysClosed(db, d)
    ensures d.categories == d.styles == d.subcategories == {} && d.users == {}
  {
    Nothing.(
      products := ps,
      attributes := (set a | a in db.attributes && db.attributes[a].product in ps),
      reviews := (set r | r in db.reviews && db.reviews[r].product in ps),
      favourites := (set f | f in db.favourites && db.favourites[f].product in ps))
  }

  /**
   * ProductCascade collects no more than it must: any set of rows that removes
   * the products `ps` and is closed under the three product keys contains it.
   */
  lemma ProductCascadeIsLeast(db: Db, ps: set<ProductId>, e: Doomed)
    requires ps <= e.products && ProductKeysClosed(db, e)
    ensures var d := ProductCascade(db, ps);
      && d.attributes <= e.attributes
      && d.reviews <= e.reviews
      && d.favourites <= e.favourites
  {
  }

  /** The product belongs to category `c`, directly (47) or through one of its subcategories (48, 32). */
  predicate UnderCategory(db: Db, p: ProductRow, c: CategoryId) {
    p.category == c
    || (p.subcategory.Some? && p.subcategory.value in db.subcategories
        && db.subcategories[p.subcategory.value].parent == c)
  }

  function ProductCollect(db: Db, p: ProductId): (d: Doomed)
    ensures CascadeClosed(db, d)
  {
    ProductCascade(db, {p})
  }

  function SubCategoryCollect(db: Db, s: SubCategoryId): (d: Doomed)
    ensures CascadeClosed(db, d)
  {
    var ps := set p | p in db.products && db.products[p].subcategory == Some(s);
    ProductCascade(db, ps).(subcategories := {s})
  }

  function CategoryCollect(db: Db, c: CategoryId): (d: Doomed)
    ensures CascadeClosed(db, d)
  {
    var subs := set s | s in db.subcategories && db.subcategories[s].parent == c;
    var ps := set p | p in db.products && UnderCategory(db, db.products[p], c);
    ProductCascade(db, ps).(categories := {c}, subcategories := subs)
  }

  function UserCollect(db: Db, u: UserId): (d: Doomed)
    ensures CascadeClosed(db, d)
  {
    Nothing.(
      users := {u},
      reviews := (set r | r in db.reviews && db.reviews[r].user == u),
      favourites := (set f | f in db.favourites && db.favourites[f].user == u))
  }

  /**
   * The rows of the three dependent tables that survive are exactly those
   * whose product, and user where they have one, survive; and they are unchanged.
   */
  ghost predicate DependentsFollow(db: Db, r: Db) {
    && (forall a :: a in r.attributes <==> a in db.attributes && db.attributes[a].product in r.products)
    && (forall a :: a in r.attributes ==> r.attributes[a] == db.attributes[a])
    && (forall v :: v in r.reviews <==> v in db.reviews && db.reviews[v].product in r.products && db.reviews[v].user in r.users)
    && (forall v :: v in r.reviews ==> r.reviews[v] == db.reviews[v])
    && (forall f :: f in r.favourites <==> f in db.favourites && db.favourites[f].product in r.products && db.favourites[f].user in r.users)
    && (forall f :: f in r.favourites ==> r.favourites[f] == db.favourites[f])
  }

  /** Deleting a Style (models.py:53): every product that used it survives with `style` nulled and its style code kept. */
  function DeleteStyle(db: Db, s: StyleId): (r: Db)
    ensures Consistent(db) ==> Consistent(r)
    ensures r.styles.Keys == db.styles.Keys - {s}
    ensures forall t :: t in r.styles ==> r.styles[t] == db.styles[t]
    ensures r.products.Keys == db.products.Keys
    ensures forall p :: p in r.products ==> r.products[p].style == (if db.products[p].style == Some(s) then None else db.products[p].style)
    ensures forall p :: p in r.products ==> r.products[p] == db.products[p].(style := r.products[p].style)
    ensures r.categories == db.categories && r.subcategories == db.subcategories
    ensures r.attributes == db.attributes && r.reviews == db.reviews && r.favourites == db.favourites && r.users == db.users
  {
    var d := Nothing.(styles := {s});
    StyleDeleteIsClosed(db, s);
    ApplyPreservesConsistency(db, d);
    ApplyFrame(db, d);
    StyleDeleteKeepsProducts(db, s);
    Apply(db, d)
  }

  /** A style delete drags nothing along: no CASCADE key points at a style. */
  lemma StyleDeleteIsClosed(db: Db, s: StyleId)
    ensures CascadeClosed(db, Nothing.(styles := {s}))
  {
  }

  /** What a style delete does to the products: none goes, and those that used the style lose it. */
  lemma StyleDeleteKeepsProducts(db: Db, s: StyleId)
    ensures var r := Apply(db, Nothing.(styles := {s}));
      && r.products.Keys == db.products.Keys
      && (forall p :: p in r.products ==> r.products[p].style == (if db.products[p].style == Some(s) then None else db.products[p].style))
      && (forall p :: p in r.products ==> r.products[p] == db.products[p].(style := r.products[p].style))
  {
    var r := Apply(db, Nothing.(styles := {s}));
    assert r.products.Keys == db.products.Keys - {};
    assert db.products.Keys - {} == db.products.Keys;
    forall p | p in r.products
      ensures r.products[p] == Unstyled(db.products[p], {s})
    {
    }
  }

  /**
   * Deleting a Category (models.py:12, 32, 47, 48): its subcategories and every
   * product it covers go, with those products' dependents (76, 83, 96); child
   * categories survive with only `parent_category` nulled.
   */
  function DeleteCategory(db: Db, c: CategoryId): (r: Db)
    ensures Consistent(db) ==> Consistent(r)
    ensures r.categories.Keys == db.categories.Keys - {c}
    ensures forall k :: k in r.categories ==>
      r.categories[k] == if db.categories[k].parent == Some(c) then db.categories[k].(parent := None) else db.categories[k]
    ensures forall s :: s in r.subcategories <==> s in db.subcategories && db.subcategories[s].parent != c
    ensures forall s :: s in r.subcategories ==> r.subcategories[s] == db.subcategories[s]
    ensures forall p :: p in r.products <==> p in db.products && !UnderCategory(db, db.products[p], c)
    ensures forall p :: p in r.products ==> r.products[p] == db.products[p]
    ensures Consistent(db) ==> DependentsFollow(db, r)
    ensures r.styles == db.styles && r.users == db.users
  {
    var d := CategoryCollect(db, c);
    ApplyPreservesConsistency(db, d);
    ApplyFrame(db, d);
    Apply(db, d)
  }

  /** Deleting a SubCategory (models.py:48): the products filed under it go, with their dependents. */
  function DeleteSubCategory(db: Db, s: SubCategoryId): (r: Db)
    ensures Consistent(db) ==> Consistent(r)
    ensures r.subcategories.Keys == db.subcategories.Keys - {s}
    ensures forall t :: t in r.subcategories ==> r.subcategories[t] == db.subcategories[t]
    ensures forall p :: p in r.products <==> p in db.products && db.products[p].subcategory != Some(s)
    ensures forall p :: p in r.products ==> r.products[p] == db.products[p]
    ensures Consistent(db) ==> DependentsFollow(db, r)
    ensures r.categories == db.categories && r.styles == db.styles && r.users == db.users
  {
    var d := SubCategoryCollect(db, s);
    ApplyPreservesConsistency(db, d);
    ApplyFrame(db, d);
    Apply(db, d)
  }

  /** Deleting a Product (models.py:76, 83, 96): exactly its attributes, reviews and favourites go with it. */
  function DeleteProduct(db: Db, p: ProductId): (r: Db)
    ensures Consistent(db) ==> Consistent(r)
    ensures r.products.Keys == db.products.Keys - {p}
    ensures forall q :: q in r.products ==> r.products[q] == db.products[q]
    ensures forall a :: a in r.attributes <==> a in db.attributes && db.attributes[a].product != p
    ensures forall v :: v in r.reviews <==> v in db.reviews && db.reviews[v].product != p
    ensures forall f :: f in r.favourites <==> f in db.favourites && db.favourites[f].product != p
    ensures Consistent(db) ==> DependentsFollow(db, r)
    ensures r.categories == db.categories && r.subcategories == db.subcategories
    ensures r.styles == db.styles && r.users == db.users
  {
    var d := ProductCollect(db, p);
    ApplyPreservesConsistency(db, d);
    ApplyFrame(db, d);
    Apply(db, d)
  }

  /** Deleting a User (models.py:84, 95): exactly that user's reviews and favourites go. */
  function DeleteUser(db: Db, u: UserId): (r: Db)
    ensures Consistent(db) ==> Consistent(r)
    ensures r.users == db.users - {u}
    ensures forall v :: v in r.reviews <==> v in db.reviews && db.reviews[v].user != u
    ensures forall v :: v in r.reviews ==> r.reviews[v] == db.reviews[v]
    ensures forall f :: f in r.favourites <==> f in db.favourites && db.favourites[f].user != u
    ensures forall f :: f in r.favourites ==> r.favourites[f] == db.favourites[f]
    ensures r.categories == db.categories && r.styles == db.styles && r.subcategories == db.subcategories
    ensures r.products == db.products && r.attributes == db.attributes
  {
    var d := UserCollect(db, u);
    ApplyPreservesConsistency(db, d);
    ApplyFrame(db, d);
    Apply(db, d)
  }

  /** Deleting a ProductAttribute, a ProductReview or a FavouriteProduct: no foreign key names those rows, so only the row itself goes. */
  function DeleteAttribute(db: Db, a: AttributeId): (r: Db)
    ensures Consistent(db) ==> Consistent(r)
    ensures r.attributes.Keys == db.attributes.Keys - {a}
    ensures forall b :: b in r.attributes ==> r.attributes[b] == db.attributes[b]
    ensures r.categories == db.categories && r.styles == db.styles && r.subcategories == db.subcategories
    ensures r.products == db.products && r.reviews == db.reviews && r.favourites == db.favourites && r.users == db.users
  {
    var d := Nothing.(attributes := {a});
    ApplyPreservesConsistency(db, d);
    ApplyFrame(db, d);
    Apply(db, d)
  }

  function DeleteReview(db: Db, v: ReviewId): (r: Db)
    ensures Consistent(db) ==> Consistent(r)
    ensures r.reviews.Keys == db.reviews.Keys - {v}
    ensures forall w :: w in r.reviews ==> r.reviews[w] == db.reviews[w]
    ensures r.categories == db.categories && r.styles == db.styles && r.subcategories == db.subcategories
    ensures r.products == db.products && r.attributes == db.attributes && r.favourites == db.favourites && r.users == db.users
  {
    var d := Nothing.(reviews := {v});
    ApplyPreservesConsistency(db, d);
    ApplyFrame(db, d);
    Apply(db, d)
  }

  function DeleteFavourite(db: Db, f: FavouriteId): (r: Db)
    ensures Consistent(db) ==> Consistent(r)
    ensures r.favourites.Keys == db.favourites.Keys - {f}
    ensures forall g :: g in r.favourites ==> r.favourites[g] == db.favourites[g]
    ensures r.categories == db.categories && r.styles == db.styles && r.subcategories == db.subcategories
    ensures r.products == db.products && r.attributes == db.attributes && r.reviews == db.reviews && r.users == db.users
  {
    var d := Nothing.(favourites := {f});
    ApplyPreservesConsistency(db, d);
    ApplyFrame(db, d);
    Apply(db, d)
  }

  /** A delete of one row of one table. */
  datatype DeleteRequest =
    | OfCategory(category: CategoryId)
    | OfStyle(style: StyleId)
    | OfSubCategory(subcategory: SubCategoryId)
    | OfProduct(product: ProductId)
    | OfAttribute(attribute: AttributeId)
    | OfReview(review: ReviewId)
    | OfFavourite(favourite: FavouriteId)
    | OfUser(user: UserId)

  function Perform(db: Db, req: DeleteRequest): Db {
    match req
    case OfCategory(c) => DeleteCategory(db, c)
    case OfStyle(s) => DeleteStyle(db, s)
    case OfSubCategory(s) => DeleteSubCategory(db, s)
    case OfProduct(p) => DeleteProduct(db, p)
    case OfAttribute(a) => DeleteAttribute(db, a)
    case OfReview(v) => DeleteReview(db, v)
    case OfFavourite(f) => DeleteFavourite(db, f)
    case OfUser(u) => DeleteUser(db, u)
  }

  function PerformAll(db: Db, reqs: seq<DeleteRequest>): Db
    decreases |reqs|
  {
    if reqs == [] then db else PerformAll(Perform(db, reqs[0]), reqs[1..])
  }

  /** After any series of deletes, no surviving row holds a dangling reference. */
  lemma {:induction false} DeletesPreserveConsistency(db: Db, reqs: seq<DeleteRequest>)
    requires Consistent(db)
    ensures Consistent(PerformAll(db, reqs))
    decreases |reqs|
  {
    if reqs != [] {
      DeletesPreserveConsistency(Perform(db, reqs[0]), reqs[1..]);
    }
  }
}
