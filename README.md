# Kitchen POS: menu construction and its price invariant

This project models how a `Menu` of the kitchen point-of-sale system is built
(`Menu.of` and `Menu.entityOf`, which run the private constructor). It proves
the properties that construction promises:

- The checks run in a fixed order: the menu group must not be null, then the
  menu product list must not be null or empty, then the price must not be more
  than the sum of product price times quantity.
- Each failure has its own error. The first failing check is the one reported.
- A price equal to the sum, or below it, is accepted.
- Nothing is changed before all checks pass. On failure no menu product's
  back-link to its menu is touched.
- On success, every menu product in the list points to the new menu. The
  getters return the inputs. `entityOf` leaves the id absent.

Money is exact decimal (`BigDecimal`) in the source and `real` here, which is
also exact. A Java `null` menu group is a `MenuGroup?` reference. A possibly
null list is `Option<seq<MenuProduct>>`. The three `IllegalArgumentException`
throws are the constructors of `MenuError`. Everything is in `menu.dfy`,
module `MenuDomain`.

Dafny constructors cannot fail. So `Menu.Of` runs `Validate` first and calls
the constructor only when every check passed. The constructor's `requires`
states that. The constructor stores the fields before it back-links the
products, while the source does it the other way round. With
`MenuProduct.setMenu` taken to be a plain field assignment, that order is not
observable in the model. The menu's fields are constants: nothing changes them
after construction, and the source has no setters either.

## Model

| member | source | states |
|---|---|---|
| MenuDomain.Menu.Of | src/main/java/kitchenpos/domain/menu/Menu.java:35-50 | the result is a failure exactly when the checks fail, with the first failing check's error; on failure no product's menu link changes; on success the menu is new, satisfies `Valid` (checks pass, every product links back), keeps the given id, and its getters return the given name, price, group and the same product list in the same order |
| MenuDomain.Menu.EntityOf | src/main/java/kitchenpos/domain/menu/Menu.java:52-55 | same outcome as `Of`, and a successful menu has no id |
| MenuDomain.Menu.constructor | src/main/java/kitchenpos/domain/menu/Menu.java:35-45 | given inputs that pass every check, stores exactly the inputs and links every product back to the new menu |
| MenuDomain.Menu.Validate | src/main/java/kitchenpos/domain/menu/Menu.java:57-62 | returns exactly the `Verdict` of the three checks run in order |
| MenuDomain.Verdict | src/main/java/kitchenpos/domain/menu/Menu.java:57-91 | a null group is reported whatever the list and price; a null list and then an empty list are reported next; the menu passes if and only if group and list are present, the list is non-empty and price <= sum; it fails on price if and only if the other checks pass and price > sum |
| MenuDomain.Menu.ValidateMenuGroup | src/main/java/kitchenpos/domain/menu/Menu.java:64-68 | passes if and only if the group is not null; otherwise fails with the group error |
| MenuDomain.Menu.ValidateMenuProducts | src/main/java/kitchenpos/domain/menu/Menu.java:70-78 | passes if and only if the list is present and non-empty; a null list and an empty list fail with their own errors |
| MenuDomain.Menu.ValidatePrice | src/main/java/kitchenpos/domain/menu/Menu.java:80-91 | the accumulator loop computes the recursive `Sum` of price times quantity from zero; the check passes if and only if price <= that sum, and fails with the price error otherwise |
| MenuDomain.Menu.SetMenu | src/main/java/kitchenpos/domain/menu/Menu.java:93-97 | every product in the list afterwards points to this menu; only the products' menu links may change |
| MenuDomain.SumAppend | src/main/java/kitchenpos/domain/menu/Menu.java:81-86 | the sum over a concatenation is the sum of the sums, which carries the loop from one product to the next |
| MenuDomain.SumOrderIndependent | src/main/java/kitchenpos/domain/menu/Menu.java:81-86 | with exact arithmetic, two lists holding the same products in any order have the same sum |
| MenuDomain.SumNonNegative | src/main/java/kitchenpos/domain/menu/Menu.java:81-86 | with no negative price or quantity, the sum is not negative |
| MenuDomain.ZeroPriceAccepted | src/main/java/kitchenpos/domain/menu/Menu.java:88-90 | a price of zero passes all checks for a present group and a non-empty list of non-negative products |
| MenuDomain.PriceScenario | src/main/java/kitchenpos/domain/menu/Menu.java:80-91 | products 600 x 1 and 500 x 1 accept prices 1000 and 1100 and reject 1200 with the price error |
| MenuDomain.EntityOfScenario | src/test/java/kitchenpos/repository/MenuRepositoryTest.java:23-33 | a menu priced 1000 over one product of 10000 x 1 is built, with the given name, price and group and no id |

## Left out

- `MenuName`, `MenuPrice`, `MenuProduct` and `MenuGroup` are not part of this model. They are treated abstractly: `MenuName` and `MenuPrice` wrap a value with no validation of their own, `MenuPrice.isMoreThan` is "strictly greater than", and a menu product has a fixed product price, a fixed quantity and a mutable menu link.
- A null name, a null price, a null element in the product list and a null product price are not modelled. In the model these values cannot be null.
- MenuDomain.Menu.Of: the product list is a value; the source shares the caller's `List` (Menu.java:44) and returns that same object from `getMenuProducts` (Menu.java:111-113), so later changes to it by the caller, and the price invariant breaking as a result, are not modelled.
- The product price is a field of the menu product. In the source it is read from the related product at validation time.
- Identifier assignment by the persistence layer (`BaseIdEntity`), the JPA mapping (cascade, orphan removal) and `toString` are not modelled.
- The getters `GetName`, `GetPrice`, `GetMenuGroup` and `GetMenuProducts` (Menu.java:99-113) only read a field. They carry no contract of their own; `Of` and `EntityOf` state what they return.
- The repository tests, the REST controller tests and the DTOs `MenuResponse`, `OrderLineItemRequest` and `ProductRequest` are plain framework code and field carriers.
- Order status transitions and table occupancy rules are not part of this model. Their code is not among the modelled files.
