/** The Spring Data repositories the services use, as in-memory tables.
    Their interfaces are not part of this model: each is taken to be a
    table by key whose `save` stores the entity as it is, generating an
    identity key from a counter when the entity is new. */
module Repositories {
  import opened Wrappers
  import opened ShopData
  import opened OrderEntity

  /** The role constants of the service. */
  datatype ERole = ROLE_USER | ROLE_ADMIN

  /** A stored user: the password is as the encoder returned it. */
  datatype UserRecord = UserRecord(username: string, email: string, password: string, roles: set<ERole>)

  /** Carts by the id of their user, each with its items. */
  class CartRepository {
    var carts: map<int, seq<CartLine>>

    constructor (carts: map<int, seq<CartLine>>)
      ensures this.carts == carts
    {
      this.carts := carts;
    }
  }

  /** Products by id; each product is stored under its own id. */
  class ProductRepository {
    var products: map<int, Product>

    predicate Valid()
      reads this
    {
      forall k :: k in products ==> products[k].id == k
    }

    constructor (products: map<int, Product>)
      requires forall k :: k in products ==> products[k].id == k
      ensures this.products == products && Valid()
    {
      this.products := products;
    }
  }

  /** Orders by id, and the counter of the identity column. */
  class OrderRepository {
    var orders: map<int, OrderRecord>
    var nextId: int

    /** Every stored order carries its own key, and keys lie below the
        counter. */
    predicate Valid()
      reads this
    {
      forall k :: k in orders ==> k < nextId && orders[k].id == Some(k)
    }

    constructor ()
      ensures orders == map[] && Valid()
    {
      orders := map[];
      nextId := 1;
    }
  }

  /** Users by id, and the counter of the identity column. */
  class UserRepository {
    var users: map<int, UserRecord>
    var nextId: int

    predicate Valid()
      reads this
    {
      forall k :: k in users ==> k < nextId
    }

    constructor ()
      ensures users == map[] && Valid()
    {
      users := map[];
      nextId := 1;
    }
  }

  /** The roles present in the role table. */
  class RoleRepository {
    var roles: set<ERole>

    constructor (roles: set<ERole>)
      ensures this.roles == roles
    {
      this.roles := roles;
    }
  }
}
