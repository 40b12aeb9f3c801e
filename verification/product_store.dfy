/**
 * The product service's endpoints over its product table. The table is a
 * map from id to product; ids of new rows come from the database and are
 * a parameter here.
 */
module ProductStore {
  import opened Wrappers
  import Types

  /** The body of a create request. */
  datatype ProductCreate = ProductCreate(name: string, price: real, description: Option<string>, stock: int)

  /** One field of an update request: left out of the request, or given a value. */
  datatype Patch<T> = Omitted | Provided(value: T)

  /** The body of an update request; every field may be left out. */
  datatype ProductUpdate = ProductUpdate(
    name: Patch<string>,
    price: Patch<real>,
    description: Patch<Option<string>>,
    stock: Patch<int>)

  /** One `setattr` on a stored row. */
  datatype Assignment =
    | SetName(name: string)
    | SetPrice(price: real)
    | SetDescription(description: Option<string>)
    | SetStock(stock: int)

  /** An HTTP error response: its status code and detail. */
  datatype HttpError = HttpError(status: int, detail: string)

  const NotFound := HttpError(404, "Product not found")

  /** The position of an assignment's field in the update model's declaration order. */
  function FieldRank(a: Assignment): nat
  {
    match a
    case SetName(_) => 0
    case SetPrice(_) => 1
    case SetDescription(_) => 2
    case SetStock(_) => 3
  }

  /** Assignment `a` sets a field to the value the request gives it. */
  predicate Given(u: ProductUpdate, a: Assignment)
  {
    match a
    case SetName(v) => u.name == Provided(v)
    case SetPrice(v) => u.price == Provided(v)
    case SetDescription(v) => u.description == Provided(v)
    case SetStock(v) => u.stock == Provided(v)
  }

  /** The fields the request actually sets, with their values. */
  function UpdateData(u: ProductUpdate): seq<Assignment>
  {
    (if u.name.Provided? then [SetName(u.name.value)] else [])
    + (if u.price.Provided? then [SetPrice(u.price.value)] else [])
    + (if u.description.Provided? then [SetDescription(u.description.value)] else [])
    + (if u.stock.Provided? then [SetStock(u.stock.value)] else [])
  }

  /**
   * The fields an update sets are exactly those given in the request, with
   * the values given, each once, in the order the update model declares them.
   */
  lemma UpdateDataInOrder(u: ProductUpdate)
    ensures forall k :: 0 <= k < |UpdateData(u)| ==> Given(u, UpdateData(u)[k])
    ensures u.name.Provided? ==> SetName(u.name.value) in UpdateData(u)
    ensures u.price.Provided? ==> SetPrice(u.price.value) in UpdateData(u)
    ensures u.description.Provided? ==> SetDescription(u.description.value) in UpdateData(u)
    ensures u.stock.Provided? ==> SetStock(u.stock.value) in UpdateData(u)
    ensures forall j, k :: 0 <= j < k < |UpdateData(u)| ==> FieldRank(UpdateData(u)[j]) < FieldRank(UpdateData(u)[k])
  {
  }

  /** Sets one field of a stored row to the assignment's value. */
  function Assign(p: Types.Product, a: Assignment): Types.Product
  {
    match a
    case SetName(v) => p.(name := v)
    case SetPrice(v) => p.(price := v)
    case SetDescription(v) => p.(description := v)
    case SetStock(v) => p.(stock := v)
  }

  /** The row after the assignments `data` were applied in order. */
  function AssignAll(p: Types.Product, data: seq<Assignment>): Types.Product
    decreases |data|
  {
    if data == [] then p else Assign(AssignAll(p, data[..|data| - 1]), data[|data| - 1])
  }

  /** A partial update, field by field: a given field takes the new value, an omitted one keeps the old. */
  function Patched(p: Types.Product, u: ProductUpdate): (r: Types.Product)
    ensures r.id == p.id
    ensures r.name == (if u.name.Provided? then u.name.value else p.name)
    ensures r.price == (if u.price.Provided? then u.price.value else p.price)
    ensures r.description == (if u.description.Provided? then u.description.value else p.description)
    ensures r.stock == (if u.stock.Provided? then u.stock.value else p.stock)
  {
    Types.Product(
      p.id,
      if u.name.Provided? then u.name.value else p.name,
      if u.price.Provided? then u.price.value else p.price,
      if u.description.Provided? then u.description.value else p.description,
      if u.stock.Provided? then u.stock.value else p.stock)
  }

  lemma {:induction false} AssignAllAppend(p: Types.Product, xs: seq<Assignment>, ys: seq<Assignment>)
    ensures AssignAll(p, xs + ys) == AssignAll(AssignAll(p, xs), ys)
    decreases |ys|
  {
    if ys == [] {
      assert xs + ys == xs;
    } else {
      assert (xs + ys)[..|xs + ys| - 1] == xs + ys[..|ys| - 1];
      AssignAllAppend(p, xs, ys[..|ys| - 1]);
    }
  }

  /** Applying the request's fields one by one, as the endpoint's loop does, yields the field-wise patch. */
  lemma UpdateDataPatches(p: Types.Product, u: ProductUpdate)
    ensures AssignAll(p, UpdateData(u)) == Patched(p, u)
  {
    var a := if u.name.Provided? then [SetName(u.name.value)] else [];
    var b := if u.price.Provided? then [SetPrice(u.price.value)] else [];
    var c := if u.description.Provided? then [SetDescription(u.description.value)] else [];
    var d := if u.stock.Provided? then [SetStock(u.stock.value)] else [];
    AssignAllAppend(p, a + b + c, d);
    AssignAllAppend(p, a + b, c);
    AssignAllAppend(p, a, b);
    AssignAllAppend(p, [], a);
    assert AssignAll(p, []) == p;
    assert [] + a == a;
  }

  /** A set of ids without members is the empty set. */
  lemma NoMemberIsEmpty(s: set<int>)
    requires forall x :: x !in s
    ensures s == {}
  {
    var none: set<int> := {};
    assert forall x :: x in s <==> x in none;
    assert s == none;
  }

  /** The product table. */
  class ProductTable {
    var products: map<int, Types.Product>

    /** Every row is stored under its own id. */
    ghost predicate Valid()
      reads this
    {
      forall id :: id in products ==> products[id].id == id
    }

    /**
     * The table at start-up: creating the tables keeps whatever rows the
     * database already holds (none on a first start), each under its own id.
     */
    constructor (stored: map<int, Types.Product>)
      requires forall id :: id in stored ==> stored[id].id == id
      ensures Valid() && products == stored
    {
      products := stored;
    }

    /** `create_products`: stores a new row with exactly the given fields under a new id, and returns it. */
    method CreateProducts(p: ProductCreate, newId: int) returns (r: Types.Product)
      requires Valid() && newId !in products
      modifies this
      ensures Valid()
      ensures r == Types.Product(newId, p.name, p.price, p.description, p.stock)
      ensures products == old(products)[newId := r]
    {
      r := Types.Product(newId, p.name, p.price, p.description, p.stock);
      products := products[newId := r];
    }

    /** `get_products`: every stored row exactly once. */
    method GetProducts() returns (r: seq<Types.Product>)
      requires Valid()
      ensures |r| == |products|
      ensures forall id :: id in products ==> products[id] in r
      ensures forall k :: 0 <= k < |r| ==> r[k].id in products && products[r[k].id] == r[k]
      ensures forall j, k :: 0 <= j < k < |r| ==> r[j].id != r[k].id
    {
      var table := products;
      r := [];
      var remaining := table.Keys;
      while remaining != {}
        invariant remaining <= table.Keys
        invariant |r| + |remaining| == |table|
        invariant forall id :: id in table && id !in remaining ==> table[id] in r
        invariant forall k :: 0 <= k < |r| ==> r[k].id in table && r[k].id !in remaining && table[r[k].id] == r[k]
        invariant forall j, k :: 0 <= j < k < |r| ==> r[j].id != r[k].id
        decreases |remaining|
      {
        if forall x :: x !in remaining {
          NoMemberIsEmpty(remaining);
          assert false;
        }
        var key :| key in remaining;
        var row := table[key];
        assert row.id == key;
        r := r + [row];
        remaining := remaining - {key};
      }
    }

    /** `get_product_by_id`: the stored row, or 404 when there is none. */
    method GetProductById(id: int) returns (r: Result<Types.Product, HttpError>)
      ensures id in products ==> r == Success(products[id])
      ensures id !in products ==> r == Failure(NotFound)
    {
      if id !in products {
        return Failure(NotFound);
      }
      return Success(products[id]);
    }

    /**
     * `update_product`: 404 for an unknown id, with the table unchanged.
     * Otherwise the fields given in the request are set on the row one by
     * one, the others keep their values, no other row changes, and the
     * updated row is returned.
     */
    method UpdateProduct(id: int, u: ProductUpdate) returns (r: Result<Types.Product, HttpError>)
      requires Valid()
      modifies this
      ensures Valid()
      ensures id !in old(products) ==> r == Failure(NotFound) && products == old(products)
      ensures id in old(products) ==>
        r == Success(Patched(old(products)[id], u)) && products == old(products)[id := r.value]
    {
      if id !in products {
        return Failure(NotFound);
      }
      var row := products[id];
      var data := UpdateData(u);
      var i := 0;
      while i < |data|
        invariant 0 <= i <= |data|
        invariant row == AssignAll(products[id], data[..i])
      {
        assert data[..i + 1][..i] == data[..i];
        row := Assign(row, data[i]);
        i := i + 1;
      }
      assert data[..|data|] == data;
      UpdateDataPatches(products[id], u);
      products := products[id := row];
      return Success(row);
    }

    /** `delete_product`: 404 for an unknown id; otherwise only that row is removed. */
    method DeleteProduct(id: int) returns (r: Result<(), HttpError>)
      requires Valid()
      modifies this
      ensures Valid()
      ensures r.Success? <==> id in old(products)
      ensures r.Failure? ==> r.error == NotFound
      ensures products == old(products) - {id}
    {
      if id !in products {
        return Failure(NotFound);
      }
      products := products - {id};
      return Success(());
    }
  }
}
