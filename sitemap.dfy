/** The sitemap generator: a root entry, then one entry per product that has a
    slug, then one entry per configured category that has a slug; when the
    product catalogue cannot be fetched, the root entry alone. */
module Sitemap {
  import opened Wrappers

  datatype ChangeFrequency = Always | Daily

  /** A priority in tenths: 10 is 1.0, 8 is 0.8, 5 is 0.5. */
  type Priority = p: nat | p <= 10

  const RootPriority: Priority := 10
  const ProductPriority: Priority := 8
  const CategoryPriority: Priority := 5

  /** One sitemap entry; `lastModified` is in milliseconds since the epoch. */
  datatype Entry = Entry(url: string, lastModified: int, changeFrequency: ChangeFrequency, priority: Priority)

  /** A product as the commerce SDK returns it: the slug stored in its metadata
      (absent when the metadata or the slug is missing) and the time of its last
      update in seconds since the epoch. */
  datatype Product = Product(slug: Option<string>, updated: int)

  /** A category of the store configuration. */
  datatype Category = Category(slug: Option<string>)

  /** The product fetch threw. */
  datatype FetchError = FetchError

  /** A product is listed when its metadata slug is truthy: present and not
      the empty string. */
  predicate ProductHasSlug(p: Product): (ok: bool)
    ensures p.slug.None? || p.slug == Some("") ==> !ok
    ensures p.slug.Some? && p.slug.value != "" ==> ok
  {
    Truthy(p.slug)
  }

  /** A category is listed when its slug is truthy. */
  predicate CategoryHasSlug(c: Category): (ok: bool)
    ensures c.slug.None? || c.slug == Some("") ==> !ok
    ensures c.slug.Some? && c.slug.value != "" ==> ok
  {
    Truthy(c.slug)
  }

  /** The elements of `s` that `keep` accepts, in their order in `s`. */
  function Filter<T>(s: seq<T>, keep: T -> bool): (r: seq<T>)
    ensures |r| <= |s|
    ensures forall i :: 0 <= i < |r| ==> keep(r[i]) && r[i] in s
  {
    if s == [] then []
    else if keep(s[0]) then [s[0]] + Filter(s[1..], keep)
    else Filter(s[1..], keep)
  }

  /** An element is kept exactly when it occurs in the input and is accepted. */
  lemma {:induction false} FilterMembership<T>(s: seq<T>, keep: T -> bool, x: T)
    ensures x in Filter(s, keep) <==> x in s && keep(x)
  {
    if s != [] {
      FilterMembership(s[1..], keep, x);
      assert s == [s[0]] + s[1..];
    }
  }

  /** Filtering distributes over concatenation, so it keeps the input order. */
  lemma {:induction false} FilterAppend<T>(a: seq<T>, b: seq<T>, keep: T -> bool)
    ensures Filter(a + b, keep) == Filter(a, keep) + Filter(b, keep)
  {
    if a == [] {
      assert a + b == b;
    } else {
      assert (a + b)[1..] == a[1..] + b;
      FilterAppend(a[1..], b, keep);
    }
  }

  /** Nothing is dropped exactly when every element is accepted. */
  lemma {:induction false} FilterKeepsAll<T>(s: seq<T>, keep: T -> bool)
    ensures Filter(s, keep) == s <==> forall i :: 0 <= i < |s| ==> keep(s[i])
  {
    if s != [] {
      FilterKeepsAll(s[1..], keep);
      if !keep(s[0]) {
        assert |Filter(s, keep)| < |s|;
      } else if forall i :: 0 <= i < |s| - 1 ==> keep(s[1..][i]) {
        assert forall i :: 0 <= i < |s| ==> keep(s[i]) by {
          forall i | 0 < i < |s| ensures keep(s[i]) { assert s[i] == s[1..][i - 1]; }
        }
      } else {
        var j :| 0 <= j < |s| - 1 && !keep(s[1..][j]);
        assert !keep(s[j + 1]);
      }
    }
  }

  function RootEntry(publicUrl: string, now: int): (e: Entry)
    ensures e.url == publicUrl && e.lastModified == now
    ensures e.changeFrequency == Always && e.priority == RootPriority
  {
    Entry(publicUrl, now, Always, RootPriority)
  }

  /** A product's entry: the public URL, then `/product/`, then the slug; the
      update time converted from seconds to milliseconds; daily; 0.8. */
  function ProductEntry(publicUrl: string, p: Product): (e: Entry)
    requires ProductHasSlug(p)
    ensures |e.url| > |publicUrl| + 9
    ensures e.url[..|publicUrl|] == publicUrl && e.url[|publicUrl|..|publicUrl| + 9] == "/product/"
    ensures e.url[|publicUrl| + 9..] == p.slug.value
    ensures e.lastModified == p.updated * 1000
    ensures e.changeFrequency == Daily && e.priority == ProductPriority
  {
    Entry(publicUrl + "/product/" + p.slug.value, p.updated * 1000, Daily, ProductPriority)
  }

  /** A category's entry: the public URL, then `/category/`, then the slug;
      the current time; daily; 0.5. */
  function CategoryEntry(publicUrl: string, now: int, c: Category): (e: Entry)
    requires CategoryHasSlug(c)
    ensures |e.url| > |publicUrl| + 10
    ensures e.url[..|publicUrl|] == publicUrl && e.url[|publicUrl|..|publicUrl| + 10] == "/category/"
    ensures e.url[|publicUrl| + 10..] == c.slug.value
    ensures e.lastModified == now
    ensures e.changeFrequency == Daily && e.priority == CategoryPriority
  {
    Entry(publicUrl + "/category/" + c.slug.value, now, Daily, CategoryPriority)
  }

  /** The product entries: the products with a slug, each mapped to its entry. */
  function ProductEntries(publicUrl: string, products: seq<Product>): (r: seq<Entry>)
    ensures |r| <= |products|
    ensures forall i :: 0 <= i < |r| ==>
              exists p :: p in products && ProductHasSlug(p) && r[i] == ProductEntry(publicUrl, p)
  {
    var kept := Filter(products, ProductHasSlug);
    var r := seq(|kept|, i requires 0 <= i < |kept| => ProductEntry(publicUrl, kept[i]));
    assert forall i :: 0 <= i < |r| ==> kept[i] in products && r[i] == ProductEntry(publicUrl, kept[i]);
    r
  }

  /** The category entries: the categories with a slug, each mapped to its entry. */
  function CategoryEntries(publicUrl: string, now: int, categories: seq<Category>): (r: seq<Entry>)
    ensures |r| <= |categories|
    ensures forall i :: 0 <= i < |r| ==>
              exists c :: c in categories && CategoryHasSlug(c) && r[i] == CategoryEntry(publicUrl, now, c)
  {
    var kept := Filter(categories, CategoryHasSlug);
    var r := seq(|kept|, i requires 0 <= i < |kept| => CategoryEntry(publicUrl, now, kept[i]));
    assert forall i :: 0 <= i < |r| ==> kept[i] in categories && r[i] == CategoryEntry(publicUrl, now, kept[i]);
    r
  }

  /** The sitemap. `fetched` is the outcome of the product fetch, `categories`
      the store configuration's categories, and `now` the wall-clock time used
      for the entries that carry no date of their own. */
  function Sitemap(publicUrl: string, now: int, fetched: Result<seq<Product>, FetchError>,
                   categories: seq<Category>): (r: seq<Entry>)
    ensures |r| >= 1 && r[0] == RootEntry(publicUrl, now)
    ensures fetched.Failure? ==> r == [RootEntry(publicUrl, now)]
  {
    match fetched
    case Failure(_) => [RootEntry(publicUrl, now)]
    case Success(products) =>
      [RootEntry(publicUrl, now)] + ProductEntries(publicUrl, products)
        + CategoryEntries(publicUrl, now, categories)
  }

  /** The sitemap has one entry for the root, one per product with a slug and
      one per category with a slug. */
  lemma SitemapLength(publicUrl: string, now: int, products: seq<Product>, categories: seq<Category>)
    ensures |Sitemap(publicUrl, now, Success(products), categories)|
         == 1 + |Filter(products, ProductHasSlug)| + |Filter(categories, CategoryHasSlug)|
  {
  }

  /** Entry 1 + k is the k-th product that has a slug: its product URL, a daily
      change frequency, priority 0.8 and the update time in milliseconds. */
  lemma SitemapProductAt(publicUrl: string, now: int, products: seq<Product>, categories: seq<Category>, k: nat)
    requires k < |Filter(products, ProductHasSlug)|
    ensures var r := Sitemap(publicUrl, now, Success(products), categories);
            var p := Filter(products, ProductHasSlug)[k];
            && 1 + k < |r|
            && p in products && ProductHasSlug(p)
            && r[1 + k].url == publicUrl + "/product/" + p.slug.value
            && r[1 + k].lastModified == p.updated * 1000
            && r[1 + k].changeFrequency == Daily
            && r[1 + k].priority == ProductPriority
  {
    var kept := Filter(products, ProductHasSlug);
    FilterMembership(products, ProductHasSlug, kept[k]);
    var r := Sitemap(publicUrl, now, Success(products), categories);
    assert r[1 + k] == ProductEntries(publicUrl, products)[k] == ProductEntry(publicUrl, kept[k]);
  }

  /** The entries after the products are the categories that have a slug, in
      order: category URL, the current time, daily, priority 0.5. */
  lemma SitemapCategoryAt(publicUrl: string, now: int, products: seq<Product>, categories: seq<Category>, k: nat)
    requires k < |Filter(categories, CategoryHasSlug)|
    ensures var r := Sitemap(publicUrl, now, Success(products), categories);
            var n := 1 + |Filter(products, ProductHasSlug)|;
            var c := Filter(categories, CategoryHasSlug)[k];
            && n + k < |r|
            && c in categories && CategoryHasSlug(c)
            && r[n + k].url == publicUrl + "/category/" + c.slug.value
            && r[n + k].lastModified == now
            && r[n + k].changeFrequency == Daily
            && r[n + k].priority == CategoryPriority
  {
    var kept := Filter(categories, CategoryHasSlug);
    FilterMembership(categories, CategoryHasSlug, kept[k]);
    var r := Sitemap(publicUrl, now, Success(products), categories);
    var n := 1 + |Filter(products, ProductHasSlug)|;
    assert r[n + k] == CategoryEntries(publicUrl, now, categories)[k] == CategoryEntry(publicUrl, now, kept[k]);
  }

  /** A product is listed exactly when it has a slug. */
  lemma {:induction false} ProductListed(publicUrl: string, now: int, products: seq<Product>,
                                         categories: seq<Category>, p: Product)
    requires p in products
    ensures ProductHasSlug(p) <==>
            exists k :: 0 <= k < |Filter(products, ProductHasSlug)| && Filter(products, ProductHasSlug)[k] == p
    ensures ProductHasSlug(p) ==> ProductEntry(publicUrl, p) in Sitemap(publicUrl, now, Success(products), categories)
  {
    var kept := Filter(products, ProductHasSlug);
    FilterMembership(products, ProductHasSlug, p);
    if ProductHasSlug(p) {
      var k :| 0 <= k < |kept| && kept[k] == p;
      var r := Sitemap(publicUrl, now, Success(products), categories);
      assert r[1 + k] == ProductEntry(publicUrl, p);
    }
  }

  /** Every entry after the root comes either from a product with a slug or
      from a category with a slug. */
  lemma {:induction false} EntryOrigin(publicUrl: string, now: int, products: seq<Product>,
                                       categories: seq<Category>, j: nat)
    requires 1 <= j < |Sitemap(publicUrl, now, Success(products), categories)|
    ensures var e := Sitemap(publicUrl, now, Success(products), categories)[j];
            || (exists p :: p in products && ProductHasSlug(p) && e == ProductEntry(publicUrl, p))
            || (exists c :: c in categories && CategoryHasSlug(c) && e == CategoryEntry(publicUrl, now, c))
  {
    var kept := Filter(products, ProductHasSlug);
    var r := Sitemap(publicUrl, now, Success(products), categories);
    if j - 1 < |kept| {
      FilterMembership(products, ProductHasSlug, kept[j - 1]);
      assert r[j] == ProductEntry(publicUrl, kept[j - 1]);
    } else {
      var cats := Filter(categories, CategoryHasSlug);
      var k := j - 1 - |kept|;
      FilterMembership(categories, CategoryHasSlug, cats[k]);
      assert r[j] == CategoryEntry(publicUrl, now, cats[k]);
    }
  }

  /** Splitting the product list splits its entries the same way: entries come
      out in the order of the products. */
  lemma {:induction false} ProductEntriesAppend(publicUrl: string, a: seq<Product>, b: seq<Product>)
    ensures ProductEntries(publicUrl, a + b) == ProductEntries(publicUrl, a) + ProductEntries(publicUrl, b)
  {
    FilterAppend(a, b, ProductHasSlug);
  }

  /** Every product is listed exactly when every product has a slug. */
  lemma {:induction false} AllProductsListed(publicUrl: string, now: int, products: seq<Product>, categories: seq<Category>)
    ensures |Sitemap(publicUrl, now, Success(products), categories)| == 1 + |products| + |Filter(categories, CategoryHasSlug)|
            <==> forall i :: 0 <= i < |products| ==> ProductHasSlug(products[i])
  {
    FilterKeepsAll(products, ProductHasSlug);
    if |Filter(products, ProductHasSlug)| == |products| {
      FilterSameLength(products, ProductHasSlug);
    }
  }

  /** A filter that keeps as many elements as its input keeps all of them. */
  lemma {:induction false} FilterSameLength<T>(s: seq<T>, keep: T -> bool)
    requires |Filter(s, keep)| == |s|
    ensures Filter(s, keep) == s
  {
    if s != [] {
      assert keep(s[0]);
      FilterSameLength(s[1..], keep);
    }
  }
}
