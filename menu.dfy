/** The menu page (src/app/menu/page.tsx): the loaded products and
    categories, and the products shown for the selected category tab. */
module Menu {
  import opened Outcomes
  import opened Commerce
  import opened Lists

  const AllTab: string := "all"

  function CategoryOf(p: Product): Option<string> {
    p.categoryId
  }

  /** `filtered`: every product on the "all" tab; otherwise the products
      whose category is the selected one, in their order. A product
      without a category shows only on "all". */
  function Filtered(products: seq<Product>, active: string): (r: seq<Product>)
    ensures active == AllTab ==> r == products
    ensures |r| <= |products|
  {
    if active == AllTab then products else Select(products, CategoryOf, Some(active))
  }

  /** What a tab shows is drawn from the products in their order, and a
      category tab shows exactly the products of that category, each as
      often as it is in the list. */
  lemma FilteredIsSubsequence(products: seq<Product>, active: string)
    ensures IsSubsequence(Filtered(products, active), products)
    ensures active != AllTab ==>
      (forall i :: 0 <= i < |Filtered(products, active)| ==>
         Filtered(products, active)[i].categoryId == Some(active))
      && (forall i :: 0 <= i < |products| && products[i].categoryId == Some(active) ==>
         products[i] in Filtered(products, active))
    ensures active != AllTab ==>
      forall x :: multiset(Filtered(products, active))[x] ==
        (if x.categoryId == Some(active) then multiset(products)[x] else 0)
  {
    if active == AllTab {
      SubsequenceOfItself(products);
    } else {
      SelectIsSubsequence(products, CategoryOf, Some(active));
      SelectCount(products, CategoryOf, Some(active));
    }
  }

  /** Any list is a subsequence of itself. */
  lemma {:induction false} SubsequenceOfItself(xs: seq<Product>)
    ensures IsSubsequence(xs, xs)
    decreases |xs|
  {
    if xs != [] {
      SubsequenceOfItself(xs[1..]);
    }
  }

  /** The page's state after loading: products and categories are fetched
      together, and when either fetch fails both lists stay empty. */
  function Loaded(products: Result<seq<Product>>, categories: Result<seq<Category>>): (r: (seq<Product>, seq<Category>))
    ensures products.Ok? && categories.Ok? ==> r == (products.value, categories.value)
    ensures products.Err? || categories.Err? ==> r == ([], [])
  {
    if products.Ok? && categories.Ok? then (products.value, categories.value) else ([], [])
  }
}
