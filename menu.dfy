/**
 * Menu construction in the kitchen point-of-sale domain.
 *
 * A menu is a named, priced grouping of menu products under a menu group.
 * Construction checks, in this order, that the menu group is present, that the
 * product list is present and non-empty, and that the menu's price does not
 * exceed the sum of product price times quantity over its products. Only when
 * all three pass does each menu product get linked back to the new menu.
 *
 * Money is exact decimal in the source; it is `real` here, which is exact too.
 */
module MenuDomain {

  datatype Option<+T> = None | Some(value: T)

  /** The three distinct IllegalArgumentException causes of Menu construction. */
  datatype MenuError =
    | MenuGroupNull           // the menu group reference is null
    | MenuProductsNull        // the menu product list is null
    | MenuProductsEmpty       // the menu product list has no element
    | PriceExceedsProductSum  // the price is more than the sum of the products

  /** Outcome of a validation step: it passes, or throws with one cause. */
  datatype Outcome = Pass | Fail(error: MenuError)

  /** Outcome of a factory call: the new menu, or the cause it was rejected with. */
  datatype Result<+T> = Success(value: T) | Failure(error: MenuError)

  /** The menu's name; no validation of its own is assumed. */
  datatype MenuName = MenuName(name: string)

  /** The menu's price; no validation of its own is assumed. */
  datatype MenuPrice = MenuPrice(price: real) {
    /** Strictly greater than the given amount. */
    predicate IsMoreThan(amount: real) {
      price > amount
    }
  }

  /** A menu group: only its identity matters to Menu. */
  class MenuGroup {
    const name: string

    constructor (name: string)
      ensures this.name == name
    {
      this.name := name;
    }
  }

  /**
   * One (product, quantity) line of a menu. Its price and quantity do not
   * change; the back-link to its menu is set in place when a menu is built.
   */
  class MenuProduct {
    var menu: Menu?
    const productPrice: real
    const quantity: int

    constructor (productPrice: real, quantity: int)
      ensures this.productPrice == productPrice && this.quantity == quantity
      ensures menu == null
    {
      this.productPrice := productPrice;
      this.quantity := quantity;
      menu := null;
    }
  }

  /** What one menu product contributes to the sum: price times quantity. */
  function Amount(p: MenuProduct): real {
    p.productPrice * p.quantity as real
  }

  /** Sum of the contributions of the menu products, starting from zero. */
  function Sum(ps: seq<MenuProduct>): real {
    if ps == [] then 0.0 else Amount(ps[0]) + Sum(ps[1..])
  }

  /** The menu products of a possibly absent list, as a set of objects. */
  function Members(ps: Option<seq<MenuProduct>>): set<MenuProduct> {
    if ps.None? then {} else set p | p in ps.value
  }

  /** The sum of a concatenation is the sum of the parts. */
  lemma {:induction false} SumAppend(a: seq<MenuProduct>, b: seq<MenuProduct>)
    ensures Sum(a + b) == Sum(a) + Sum(b)
  {
    if a == [] {
      assert a + b == b;
    } else {
      assert (a + b)[1..] == a[1..] + b;
      SumAppend(a[1..], b);
    }
  }

  /** With no negative price and no negative quantity, the sum is not negative. */
  lemma {:induction false} SumNonNegative(ps: seq<MenuProduct>)
    requires forall i :: 0 <= i < |ps| ==> ps[i].productPrice >= 0.0 && ps[i].quantity >= 0
    ensures Sum(ps) >= 0.0
  {
    if ps != [] {
      var q := ps[0].quantity as real;
      assert q >= 0.0;
      assert Amount(ps[0]) >= 0.0;
      SumNonNegative(ps[1..]);
    }
  }

  /**
   * Because the arithmetic is exact, the sum, and therefore whether a price is
   * accepted, does not depend on the order of the menu products.
   */
  lemma {:induction false} SumOrderIndependent(a: seq<MenuProduct>, b: seq<MenuProduct>)
    requires multiset(a) == multiset(b)
    ensures Sum(a) == Sum(b)
  {
    if a == [] {
      assert |b| == |multiset(b)| == 0;
    } else {
      var x := a[0];
      assert a == [x] + a[1..];
      assert x in multiset(b);
      var j :| 0 <= j < |b| && b[j] == x;
      var rest := b[..j] + b[j + 1..];
      assert b == b[..j] + [x] + b[j + 1..];
      assert multiset(b) == multiset(b[..j]) + multiset([x]) + multiset(b[j + 1..]);
      assert multiset(a) == multiset([x]) + multiset(a[1..]);
      assert multiset(rest) == multiset(b[..j]) + multiset(b[j + 1..]);
      forall y ensures multiset(a[1..])[y] == multiset(rest)[y] {
        assert multiset(a)[y] == multiset(b)[y];
      }
      assert multiset(a[1..]) == multiset(rest);
      SumOrderIndependent(a[1..], rest);
      SumAppend(b[..j] + [x], b[j + 1..]);
      SumAppend(b[..j], [x]);
      SumAppend(b[..j], b[j + 1..]);
      assert Sum([x]) == Amount(x);
    }
  }

  /**
   * What Menu construction decides, check by check in the source's order:
   * the first failing check names the error; all passing means accepted.
   */
  function Verdict(price: MenuPrice, menuGroup: MenuGroup?, menuProducts: Option<seq<MenuProduct>>): (r: Outcome)
    ensures menuGroup == null ==> r == Fail(MenuGroupNull)
    ensures menuGroup != null && menuProducts.None? ==> r == Fail(MenuProductsNull)
    ensures menuGroup != null && menuProducts == Some([]) ==> r == Fail(MenuProductsEmpty)
    ensures r == Pass <==>
      menuGroup != null && menuProducts.Some? && |menuProducts.value| > 0
      && price.price <= Sum(menuProducts.value)
    ensures r == Fail(PriceExceedsProductSum) <==>
      menuGroup != null && menuProducts.Some? && |menuProducts.value| > 0
      && price.price > Sum(menuProducts.value)
  {
    var group := Menu.ValidateMenuGroup(menuGroup);
    if group.Fail? then group
    else
      var products := Menu.ValidateMenuProducts(menuProducts);
      if products.Fail? then products
      else if price.IsMoreThan(Sum(menuProducts.value)) then Fail(PriceExceedsProductSum)
      else Pass
  }

  /**
   * A price of zero passes the price check whenever no product has a negative
   * price or quantity, since the sum is then not negative.
   */
  lemma ZeroPriceAccepted(g: MenuGroup, ps: seq<MenuProduct>)
    requires |ps| > 0
    requires forall i :: 0 <= i < |ps| ==> ps[i].productPrice >= 0.0 && ps[i].quantity >= 0
    ensures Verdict(MenuPrice(0.0), g, Some(ps)) == Pass
  {
    SumNonNegative(ps);
  }

  /** Products 600 x 1 and 500 x 1 sum to 1100: prices 1000 and 1100 pass, 1200 fails on price. */
  lemma PriceScenario(g: MenuGroup, a: MenuProduct, b: MenuProduct)
    requires a.productPrice == 600.0 && a.quantity == 1
    requires b.productPrice == 500.0 && b.quantity == 1
    ensures Verdict(MenuPrice(1000.0), g, Some([a, b])) == Pass
    ensures Verdict(MenuPrice(1100.0), g, Some([a, b])) == Pass
    ensures Verdict(MenuPrice(1200.0), g, Some([a, b])) == Fail(PriceExceedsProductSum)
  {
    assert [a, b][1..] == [b];
    assert [b][1..] == [];
    assert Sum([b]) == 500.0;
    assert Sum([a, b]) == 1100.0;
  }

  class Menu {
    const id: Option<int>
    const name: MenuName
    const price: MenuPrice
    const menuGroup: MenuGroup
    const menuProducts: seq<MenuProduct>

    /** The invariant a constructed menu holds: every check passed, every product links back. */
    ghost predicate Valid()
      reads menuProducts
    {
      && Verdict(price, menuGroup, Some(menuProducts)) == Pass
      && forall i :: 0 <= i < |menuProducts| ==> menuProducts[i].menu == this
    }

    /**
     * Stores the fields and back-links the products. The checks run before this
     * in Of, so the constructor itself cannot fail.
     */
    constructor (id: Option<int>, name: MenuName, price: MenuPrice, menuGroup: MenuGroup,
                 menuProducts: seq<MenuProduct>)
      requires Verdict(price, menuGroup, Some(menuProducts)) == Pass
      modifies set p | p in menuProducts
      ensures this.id == id && this.name == name && this.price == price
      ensures this.menuGroup == menuGroup && this.menuProducts == menuProducts
      ensures Valid()
    {
      this.id := id;
      this.name := name;
      this.price := price;
      this.menuGroup := menuGroup;
      this.menuProducts := menuProducts;
      new;
      SetMenu(menuProducts);
    }

    /** Builds a menu with the given id, or fails with the first check that does not pass. */
    static method Of(id: Option<int>, name: string, price: real, menuGroup: MenuGroup?,
                     menuProducts: Option<seq<MenuProduct>>) returns (r: Result<Menu>)
      modifies Members(menuProducts)
      ensures Verdict(MenuPrice(price), menuGroup, menuProducts)
              == if r.Success? then Pass else Fail(r.error)
      ensures r.Failure? ==> forall p :: p in Members(menuProducts) ==> p.menu == old(p.menu)
      ensures r.Success? ==>
        && fresh(r.value) && r.value.Valid() && r.value.id == id
        && r.value.GetName() == name && r.value.GetPrice() == price
        && r.value.GetMenuGroup() == menuGroup
        && menuProducts.Some? && r.value.GetMenuProducts() == menuProducts.value
    {
      var outcome := Validate(MenuPrice(price), menuGroup, menuProducts);
      if outcome.Fail? {
        return Failure(outcome.error);
      }
      var menu := new Menu(id, MenuName(name), MenuPrice(price), menuGroup, menuProducts.value);
      r := Success(menu);
    }

    /** Builds a menu that has no id yet (the persistence layer assigns one). */
    static method EntityOf(name: string, price: real, menuGroup: MenuGroup?,
                           menuProducts: Option<seq<MenuProduct>>) returns (r: Result<Menu>)
      modifies Members(menuProducts)
      ensures Verdict(MenuPrice(price), menuGroup, menuProducts)
              == if r.Success? then Pass else Fail(r.error)
      ensures r.Failure? ==> forall p :: p in Members(menuProducts) ==> p.menu == old(p.menu)
      ensures r.Success? ==>
        && fresh(r.value) && r.value.Valid() && r.value.id == None
        && r.value.GetName() == name && r.value.GetPrice() == price
        && r.value.GetMenuGroup() == menuGroup
        && menuProducts.Some? && r.value.GetMenuProducts() == menuProducts.value
    {
      r := Of(None, name, price, menuGroup, menuProducts);
    }

    /** Runs the three checks in order; the first that fails decides the error. */
    static method Validate(price: MenuPrice, menuGroup: MenuGroup?,
                           menuProducts: Option<seq<MenuProduct>>) returns (r: Outcome)
      ensures r == Verdict(price, menuGroup, menuProducts)
    {
      r := ValidateMenuGroup(menuGroup);
      if r.Fail? {
        return;
      }
      r := ValidateMenuProducts(menuProducts);
      if r.Fail? {
        return;
      }
      r := ValidatePrice(price, menuProducts.value);
    }

    /** Fails exactly when the menu group is null. */
    static function ValidateMenuGroup(menuGroup: MenuGroup?): (r: Outcome)
      ensures r == Pass <==> menuGroup != null
      ensures r.Fail? ==> r.error == MenuGroupNull
    {
      if menuGroup == null then Fail(MenuGroupNull) else Pass
    }

    /** Fails when the list is null, and, failing that, when it is empty. */
    static function ValidateMenuProducts(menuProducts: Option<seq<MenuProduct>>): (r: Outcome)
      ensures r == Pass <==> menuProducts.Some? && |menuProducts.value| > 0
      ensures menuProducts.None? ==> r == Fail(MenuProductsNull)
      ensures menuProducts.Some? && |menuProducts.value| == 0 ==> r == Fail(MenuProductsEmpty)
    {
      if menuProducts.None? then Fail(MenuProductsNull)
      else if |menuProducts.value| == 0 then Fail(MenuProductsEmpty)
      else Pass
    }

    /**
     * Accumulates price times quantity over the products, from zero, and fails
     * exactly when the menu price is more than that sum.
     */
    static method ValidatePrice(price: MenuPrice, menuProducts: seq<MenuProduct>) returns (r: Outcome)
      ensures r == Pass <==> price.price <= Sum(menuProducts)
      ensures r.Fail? ==> r.error == PriceExceedsProductSum
    {
      var sum := 0.0;
      for i := 0 to |menuProducts|
        invariant sum == Sum(menuProducts[..i])
      {
        var menuProduct := menuProducts[i];
        sum := sum + menuProduct.productPrice * menuProduct.quantity as real;
        assert menuProducts[..i + 1] == menuProducts[..i] + [menuProduct];
        SumAppend(menuProducts[..i], [menuProduct]);
        assert Sum([menuProduct]) == Amount(menuProduct);
      }
      assert menuProducts[..|menuProducts|] == menuProducts;
      if price.IsMoreThan(sum) {
        r := Fail(PriceExceedsProductSum);
      } else {
        r := Pass;
      }
    }

    /** Points every menu product of the list at this menu; nothing else changes. */
    method SetMenu(menuProducts: seq<MenuProduct>)
      modifies set p | p in menuProducts
      ensures forall i :: 0 <= i < |menuProducts| ==> menuProducts[i].menu == this
    {
      for i := 0 to |menuProducts|
        invariant forall k :: 0 <= k < i ==> menuProducts[k].menu == this
      {
        menuProducts[i].menu := this;
      }
    }

    function GetName(): string
    {
      name.name
    }

    function GetPrice(): real
    {
      price.price
    }

    function GetMenuGroup(): MenuGroup
    {
      menuGroup
    }

    function GetMenuProducts(): seq<MenuProduct>
    {
      menuProducts
    }
  }

  /**
   * The repository test's scenario: a menu priced 1000 with one product of
   * price 10000 and quantity 1 is built, and its getters return the inputs.
   */
  method EntityOfScenario() returns (menu: Menu, group: MenuGroup)
    ensures menu.GetName() == "test menu" && menu.GetPrice() == 1000.0
    ensures menu.GetMenuGroup() == group && menu.id == None
  {
    group := new MenuGroup("test group");
    var product := new MenuProduct(10000.0, 1);
    var r := Menu.EntityOf("test menu", 1000.0, group, Some([product]));
    assert [product][1..] == [];
    assert Sum([product]) == 10000.0;
    menu := r.value;
  }
}
