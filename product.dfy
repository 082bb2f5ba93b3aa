/**
 * The product service's in-memory table and its handlers: get by id, search,
 * create, update, delete and the stock adjustment. Prices are real numbers.
 */
module ProductService {
  import opened Common

  datatype Product = Product(
    id: string,
    name: string,
    price: real,
    stock: int,
    category: string,
    rating: real,
    createdAt: Option<int>,
    updatedAt: Option<int>)

  const ProductNotFound: string := "Product not found"

  predicate QueryMatches(p: Product, query: Option<string>) {
    query.Some? && Contains(Lower(p.name), Lower(query.value))
  }

  predicate CategoryMatches(p: Product, category: Option<string>) {
    category.Some? && EqualsIgnoreCase(p.category, category.value)
  }

  predicate AtLeast(p: Product, minPrice: Option<real>) {
    minPrice.Some? && p.price >= minPrice.value
  }

  predicate AtMost(p: Product, maxPrice: Option<real>) {
    maxPrice.Some? && p.price <= maxPrice.value
  }

  /**
    * A product satisfies every supplied search filter. The price bounds are
    * query-string values, so any supplied bound counts, 0 included.
    */
  predicate MatchesSearch(p: Product, query: Option<string>, category: Option<string>,
                          minPrice: Option<real>, maxPrice: Option<real>) {
    && (Truthy(query) ==> QueryMatches(p, query))
    && (Truthy(category) ==> CategoryMatches(p, category))
    && (minPrice.Some? ==> minPrice.value <= p.price)
    && (maxPrice.Some? ==> p.price <= maxPrice.value)
  }

  /** The update's `{ ...product, price: price || product.price, ... }` merge, stamped with `updatedAt`. */
  function Merged(p: Product, name: Option<string>, price: Option<real>, stock: Option<int>,
                  category: Option<string>, now: int): (m: Product)
    ensures m.id == p.id && m.rating == p.rating && m.createdAt == p.createdAt
    ensures Truthy(name) ==> m.name == name.value
    ensures !Truthy(name) ==> m.name == p.name
    ensures TruthyReal(price) ==> m.price == price.value
    ensures !TruthyReal(price) ==> m.price == p.price
    ensures TruthyInt(stock) ==> m.stock == stock.value
    ensures !TruthyInt(stock) ==> m.stock == p.stock
    ensures Truthy(category) ==> m.category == category.value
    ensures !Truthy(category) ==> m.category == p.category
    ensures price == Some(0.0) ==> m.price == p.price
    ensures stock == Some(0) ==> m.stock == p.stock
    ensures m.updatedAt == Some(now)
  {
    p.(name := Or(name, p.name), price := OrReal(price, p.price), stock := OrInt(stock, p.stock),
       category := Or(category, p.category), updatedAt := Some(now))
  }

  /** Every product's stock is non-negative. */
  ghost predicate StockNonNegative(products: seq<Product>) {
    forall i :: 0 <= i < |products| ==> products[i].stock >= 0
  }

  class Products {
    var products: seq<Product>

    constructor ()
      ensures products == [
        Product("1", "Laptop", 999.99, 10, "Electronics", 4.5, None, None),
        Product("2", "Smartphone", 499.99, 20, "Electronics", 4.2, None, None),
        Product("3", "Tablet", 299.99, 15, "Electronics", 4.0, None, None),
        Product("4", "Headphones", 99.99, 30, "Audio", 4.7, None, None),
        Product("5", "Smartwatch", 199.99, 12, "Wearables", 4.1, None, None)]
      ensures StockNonNegative(products)
    {
      products := [
        Product("1", "Laptop", 999.99, 10, "Electronics", 4.5, None, None),
        Product("2", "Smartphone", 499.99, 20, "Electronics", 4.2, None, None),
        Product("3", "Tablet", 299.99, 15, "Electronics", 4.0, None, None),
        Product("4", "Headphones", 99.99, 30, "Audio", 4.7, None, None),
        Product("5", "Smartwatch", 199.99, 12, "Wearables", 4.1, None, None)];
    }

    /** `products.findIndex(p => p.id === id)`. */
    function IndexOf(id: string): (r: Option<nat>)
      reads this
      ensures r.Some? ==> r.value < |products| && products[r.value].id == id
      ensures r.Some? ==> forall j :: 0 <= j < r.value ==> products[j].id != id
      ensures r.None? <==> forall j :: 0 <= j < |products| ==> products[j].id != id
    {
      FindIndex(products, (p: Product) => p.id == id)
    }

    /** GET /api/products/:id: the first product with that id, or 404. */
    function Get(id: string): (r: Reply<Product>)
      reads this
      ensures r.Ok? <==> exists i :: 0 <= i < |products| && products[i].id == id
      ensures r.Ok? ==> r.status == 200 && r.value.id == id
      ensures r.Ok? ==> exists i :: 0 <= i < |products| && products[i] == r.value && forall j :: 0 <= j < i ==> products[j].id != id
      ensures !r.Ok? ==> r == Fail(404, ProductNotFound)
    {
      match IndexOf(id)
      case Some(i) => Ok(200, products[i])
      case None => Fail(404, ProductNotFound)
    }

    /** GET /api/products/search: each supplied filter narrows the table in turn. */
    function Search(query: Option<string>, category: Option<string>, minPrice: Option<real>,
                    maxPrice: Option<real>): (r: seq<Product>)
      reads this
      ensures r == Filter(products, (p: Product) => MatchesSearch(p, query, category, minPrice, maxPrice))
      ensures IsSubsequence(r, products)
      ensures forall i :: 0 <= i < |r| ==> MatchesSearch(r[i], query, category, minPrice, maxPrice)
      ensures forall i :: 0 <= i < |products| && MatchesSearch(products[i], query, category, minPrice, maxPrice) ==>
        products[i] in r
    {
      var byQuery := (p: Product) => QueryMatches(p, query);
      var byCategory := (p: Product) => CategoryMatches(p, category);
      var byMin := (p: Product) => AtLeast(p, minPrice);
      var byMax := (p: Product) => AtMost(p, maxPrice);
      NarrowFour(products, Truthy(query), byQuery, Truthy(category), byCategory,
                 minPrice.Some?, byMin, maxPrice.Some?, byMax,
                 (p: Product) => MatchesSearch(p, query, category, minPrice, maxPrice));
      Narrow(Narrow(Narrow(Narrow(products, Truthy(query), byQuery), Truthy(category), byCategory),
                    minPrice.Some?, byMin), maxPrice.Some?, byMax)
    }

    /**
      * POST /api/products. Unless the injected validation failure fires,
      * appends one product with the fresh id, rating 0 and the category
      * defaulting to 'Uncategorized'.
      */
    method Create(name: string, price: real, stock: int, category: Option<string>, injectedFailure: bool,
                  freshId: string, now: int) returns (r: Reply<Product>)
      modifies this
      ensures injectedFailure ==> r == Fail(400, "Invalid product data") && products == old(products)
      ensures !injectedFailure ==>
        && r.Ok? && r.status == 201
        && products == old(products) + [r.value]
        && r.value.id == freshId && r.value.name == name && r.value.price == price && r.value.stock == stock
        && r.value.category == Or(category, "Uncategorized") && r.value.rating == 0.0
        && r.value.createdAt == Some(now) && r.value.updatedAt == None
      ensures !injectedFailure && old(IndexOf(freshId)).None? ==> Get(freshId) == Ok(200, r.value)
    {
      if injectedFailure {
        return Fail(400, "Invalid product data");
      }
      var product := Product(freshId, name, price, stock, Or(category, "Uncategorized"), 0.0, Some(now), None);
      FindIndexAppend(products, product, (p: Product) => p.id == freshId);
      products := products + [product];
      r := Ok(201, product);
    }

    /**
      * PUT /api/products/:id. Replaces the first product with that id by its
      * merge with the truthy supplied fields, so a price or stock of 0 keeps
      * the old value; nothing else changes.
      */
    method Update(id: string, name: Option<string>, price: Option<real>, stock: Option<int>,
                  category: Option<string>, now: int) returns (r: Reply<Product>)
      modifies this
      ensures old(IndexOf(id)).None? ==> r == Fail(404, ProductNotFound) && products == old(products)
      ensures old(IndexOf(id)).Some? ==>
        var i := old(IndexOf(id)).value;
        && products == old(products)[i := Merged(old(products)[i], name, price, stock, category, now)]
        && r == Ok(200, products[i])
      ensures forall id' :: IndexOf(id') == old(IndexOf(id'))
    {
      var index := IndexOf(id);
      if index.None? {
        return Fail(404, ProductNotFound);
      }
      var i := index.value;
      var updated := Merged(products[i], name, price, stock, category, now);
      forall id' ensures FindIndex(products[i := updated], (p: Product) => p.id == id') == IndexOf(id') {
        FindIndexReplace(products, i, updated, (p: Product) => p.id == id');
      }
      products := products[i := updated];
      r := Ok(200, updated);
    }

    /** DELETE /api/products/:id: removes the first product with that id and returns it. */
    method Delete(id: string) returns (r: Reply<Product>)
      modifies this
      ensures old(IndexOf(id)).None? ==> r == Fail(404, ProductNotFound) && products == old(products)
      ensures old(IndexOf(id)).Some? ==>
        var i := old(IndexOf(id)).value;
        && products == RemoveAt(old(products), i)
        && r == Ok(200, old(products)[i])
    {
      var index := IndexOf(id);
      if index.None? {
        return Fail(404, ProductNotFound);
      }
      var i := index.value;
      r := Ok(200, products[i]);
      products := RemoveAt(products, i);
    }

    /**
      * PATCH /api/products/:id/stock. Adds `quantity` to the stock of the
      * first product with that id unless the result would be negative; an
      * accepted adjustment keeps every stock non-negative.
      */
    method PatchStock(id: string, quantity: int) returns (r: Reply<Product>)
      modifies this
      ensures old(IndexOf(id)).None? ==> r == Fail(404, ProductNotFound) && products == old(products)
      ensures old(IndexOf(id)).Some? && old(products)[old(IndexOf(id)).value].stock + quantity < 0 ==>
        r == Fail(400, "Insufficient stock") && products == old(products)
      ensures old(IndexOf(id)).Some? && old(products)[old(IndexOf(id)).value].stock + quantity >= 0 ==>
        var i := old(IndexOf(id)).value;
        && products == old(products)[i := old(products)[i].(stock := old(products)[i].stock + quantity)]
        && r == Ok(200, products[i])
      ensures StockNonNegative(old(products)) ==> StockNonNegative(products)
    {
      var index := IndexOf(id);
      if index.None? {
        return Fail(404, ProductNotFound);
      }
      var i := index.value;
      var newStock := products[i].stock + quantity;
      if newStock < 0 {
        return Fail(400, "Insufficient stock");
      }
      products := products[i := products[i].(stock := newStock)];
      r := Ok(200, products[i]);
    }
  }
}
