/**
 * The relational store as an object whose tables are updated in place: one
 * map per model from primary key to row. Each delete collects the rows the
 * CASCADE keys drag along and then updates the tables one by one; it is proved
 * to leave the store exactly as the corresponding function of module Deletion
 * describes. Only that final state is claimed to match the framework's, not
 * the order of the updates.
 */
module Catalog {
  import opened Options
  import opened Schema
  import Deletion

  class Store {
    var categories: map<CategoryId, CategoryRow>
    var styles: map<StyleId, StyleRow>
    var subcategories: map<SubCategoryId, SubCategoryRow>
    var products: map<ProductId, ProductRow>
    var attributes: map<AttributeId, AttributeRow>
    var reviews: map<ReviewId, ReviewRow>
    var favourites: map<FavouriteId, FavouriteRow>
    var users: set<UserId>

    /** The tables as one value. */
    function Snapshot(): Db
      reads this
    {
      Db(categories, styles, subcategories, products, attributes, reviews, favourites, users)
    }

    /** The store's invariant: every foreign key names an existing row and style labels are unique. */
    ghost predicate Valid()
      reads this
    {
      Consistent(Snapshot())
    }

    constructor ()
      ensures Valid() && Snapshot() == EmptyDb
    {
      categories, styles, subcategories, products := map[], map[], map[], map[];
      attributes, reviews, favourites, users := map[], map[], map[], {};
    }

    /**
     * Remove the collected rows table by table and null every SET_NULL
     * reference to a removed row in the rows that remain.
     */
    method DeleteCollected(d: Deletion.Doomed)
      modifies this
      ensures Snapshot() == Deletion.Apply(old(Snapshot()), d)
    {
      favourites := favourites - d.favourites;
      reviews := reviews - d.reviews;
      attributes := attributes - d.attributes;
      products := products - d.products;
      subcategories := subcategories - d.subcategories;
      categories := categories - d.categories;
      styles := styles - d.styles;
      users := users - d.users;
      categories := Deletion.OrphanAll(categories, d.categories);
      products := Deletion.UnstyleAll(products, d.styles);
    }

    /** `Category.delete()` (models.py:12, 32, 47, 48). */
    method DeleteCategory(c: CategoryId)
      requires Valid()
      modifies this
      ensures Valid()
      ensures Snapshot() == Deletion.DeleteCategory(old(Snapshot()), c)
    {
      ghost var before := Snapshot();
      var d := Deletion.CategoryCollect(Snapshot(), c);
      Deletion.ApplyPreservesConsistency(before, d);
      DeleteCollected(d);
    }

    /** `Style.delete()` (models.py:53). */
    method DeleteStyle(s: StyleId)
      requires Valid()
      modifies this
      ensures Valid()
      ensures Snapshot() == Deletion.DeleteStyle(old(Snapshot()), s)
    {
      ghost var before := Snapshot();
      var d := Deletion.Nothing.(styles := {s});
      Deletion.ApplyPreservesConsistency(before, d);
      DeleteCollected(d);
    }

    /** `SubCategory.delete()` (models.py:48). */
    method DeleteSubCategory(s: SubCategoryId)
      requires Valid()
      modifies this
      ensures Valid()
      ensures Snapshot() == Deletion.DeleteSubCategory(old(Snapshot()), s)
    {
      ghost var before := Snapshot();
      var d := Deletion.SubCategoryCollect(Snapshot(), s);
      Deletion.ApplyPreservesConsistency(before, d);
      DeleteCollected(d);
    }

    /** `Product.delete()` (models.py:76, 83, 96). */
    method DeleteProduct(p: ProductId)
      requires Valid()
      modifies this
      ensures Valid()
      ensures Snapshot() == Deletion.DeleteProduct(old(Snapshot()), p)
    {
      ghost var before := Snapshot();
      var d := Deletion.ProductCollect(Snapshot(), p);
      Deletion.ApplyPreservesConsistency(before, d);
      DeleteCollected(d);
    }

    /** `ProductAttribute.delete()`. */
    method DeleteAttribute(a: AttributeId)
      requires Valid()
      modifies this
      ensures Valid()
      ensures Snapshot() == Deletion.DeleteAttribute(old(Snapshot()), a)
    {
      ghost var before := Snapshot();
      var d := Deletion.Nothing.(attributes := {a});
      Deletion.ApplyPreservesConsistency(before, d);
      DeleteCollected(d);
    }

    /** `ProductReview.delete()`. */
    method DeleteReview(v: ReviewId)
      requires Valid()
      modifies this
      ensures Valid()
      ensures Snapshot() == Deletion.DeleteReview(old(Snapshot()), v)
    {
      ghost var before := Snapshot();
      var d := Deletion.Nothing.(reviews := {v});
      Deletion.ApplyPreservesConsistency(before, d);
      DeleteCollected(d);
    }

    /** `FavouriteProduct.delete()`. */
    method DeleteFavourite(f: FavouriteId)
      requires Valid()
      modifies this
      ensures Valid()
      ensures Snapshot() == Deletion.DeleteFavourite(old(Snapshot()), f)
    {
      ghost var before := Snapshot();
      var d := Deletion.Nothing.(favourites := {f});
      Deletion.ApplyPreservesConsistency(before, d);
      DeleteCollected(d);
    }

    /** Deleting a user of the framework's `auth.User` table (models.py:84, 95). */
    method DeleteUser(u: UserId)
      requires Valid()
      modifies this
      ensures Valid()
      ensures Snapshot() == Deletion.DeleteUser(old(Snapshot()), u)
    {
      ghost var before := Snapshot();
      var d := Deletion.UserCollect(Snapshot(), u);
      Deletion.ApplyPreservesConsistency(before, d);
      DeleteCollected(d);
    }
  }
}
