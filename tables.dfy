/** The document database as in-memory tables, and the mail transport as
    the list of messages it has sent. */
module Tables {
  import opened Common
  import opened UserModel
  import opened ProductModel
  import opened OrderModel
  import opened UserChecks

  /** A category document. Its schema file (models/category.js) is not part
      of this model, so the fields are those the handlers write, and
      whether a save is accepted is a parameter of the handlers. */
  datatype Category = Category(name: string, icon: string, color: string, parentCategory: Option<Id>)

  /** An email the transport sent: recipient, subject and the code it carries. */
  datatype Mail = Mail(to: string, subject: string, code: string)

  /** What a stored user keeps: it passed validation, its verification
      fields are consistent and a code it holds is six digits. */
  ghost predicate StoredUser(u: User) {
    && ValidUser(u)
    && OtpStateConsistent(u)
    && (u.verificationCode.Some? ==> IsOtpCode(u.verificationCode.value))
  }

  /** The user table: every user stored as above, emails distinct. */
  ghost predicate UserTableValid(users: map<Id, User>) {
    && (forall id :: id in users ==> StoredUser(users[id]))
    && EmailsUnique(users)
  }

  /** Storing a user whose email no other user holds keeps the table valid. */
  lemma StoreKeepsUserTableValid(users: map<Id, User>, id: Id, u: User)
    requires UserTableValid(users) && StoredUser(u) && EmailFreeFor(users, id, u.email)
    ensures UserTableValid(users[id := u])
  {
  }

  /** Every stored product passed validation. */
  ghost predicate ProductTableValid(products: map<Id, Product>) {
    forall id :: id in products ==> ValidProduct(products[id])
  }

  /** Every stored order header passed validation. */
  ghost predicate OrderTableValid(orders: map<Id, Order>) {
    forall id :: id in orders ==> ValidOrder(orders[id])
  }

  /** Every product a consistent database holds has a price of at least 0,
      a stock between 0 and 1000, a rating between 0 and 5, and a name,
      description, colour, size and category. */
  lemma StoredProductBounds(db: Database, id: Id)
    requires db.Valid() && id in db.products
    ensures var p := db.products[id];
      && p.price.Some? && p.price.value >= 0
      && p.countInStock.Some? && 0 <= p.countInStock.value <= MaxStock
      && 0 <= p.rating <= MaxRating
      && p.name != "" && p.description != "" && p.colour != ""
      && !p.size.NoSize? && p.category.Some?
  {
  }

  /** Every id in use lies below the counter, and the user, product and
      order tables hold only documents their schemas accept. */
  ghost predicate TablesValid(users: map<Id, User>, products: map<Id, Product>,
                              categories: map<Id, Category>, orders: map<Id, Order>,
                              orderItems: map<Id, OrderItem>, nextId: Id)
  {
    && KeysBelow(users, nextId)
    && KeysBelow(products, nextId)
    && KeysBelow(categories, nextId)
    && KeysBelow(orders, nextId)
    && KeysBelow(orderItems, nextId)
    && UserTableValid(users)
    && ProductTableValid(products)
    && OrderTableValid(orders)
  }

  /** Storing a user under an issued id (a new one, or one already in use)
      keeps the tables consistent when the user is storable and no other
      user holds its email. */
  lemma StoreUserKeepsTablesValid(users: map<Id, User>, products: map<Id, Product>,
                                  categories: map<Id, Category>, orders: map<Id, Order>,
                                  orderItems: map<Id, OrderItem>, nextId: Id, id: Id, u: User)
    requires TablesValid(users, products, categories, orders, orderItems, nextId)
    requires id < nextId && StoredUser(u) && EmailFreeFor(users, id, u.email)
    ensures TablesValid(users[id := u], products, categories, orders, orderItems, nextId)
  {
    StoreKeepsUserTableValid(users, id, u);
  }

  /** Advancing the counter keeps the tables consistent. */
  lemma IssueIdKeepsTablesValid(users: map<Id, User>, products: map<Id, Product>,
                                categories: map<Id, Category>, orders: map<Id, Order>,
                                orderItems: map<Id, OrderItem>, nextId: Id)
    requires TablesValid(users, products, categories, orders, orderItems, nextId)
    ensures TablesValid(users, products, categories, orders, orderItems, nextId + 1)
  {
  }

  /** Every collection as a map from document id to document. Ids come from
      one counter, so an id is never handed out twice. */
  class Database {
    var users: map<Id, User>
    var products: map<Id, Product>
    var categories: map<Id, Category>
    var orders: map<Id, Order>
    var orderItems: map<Id, OrderItem>
    var nextId: Id

    /** The tables as a whole are consistent (see TablesValid). */
    ghost predicate Valid()
      reads this
    {
      TablesValid(users, products, categories, orders, orderItems, nextId)
    }

    constructor ()
      ensures Valid()
      ensures users == map[] && products == map[] && categories == map[]
      ensures orders == map[] && orderItems == map[] && nextId == 0
    {
      users := map[];
      products := map[];
      categories := map[];
      orders := map[];
      orderItems := map[];
      nextId := 0;
    }

    /** A fresh ObjectId: one no table uses. */
    method IssueId() returns (id: Id)
      requires Valid()
      modifies this`nextId
      ensures Valid()
      ensures id == old(nextId) && nextId == old(nextId) + 1
      ensures id !in users && id !in products && id !in categories && id !in orders && id !in orderItems
    {
      IssueIdKeepsTablesValid(users, products, categories, orders, orderItems, nextId);
      id := nextId;
      nextId := nextId + 1;
    }

    /** Saves a user under an issued id, inserting or replacing; the unique
        email index admits it only when no other user holds its email. */
    method PutUser(id: Id, u: User)
      requires Valid() && id < nextId
      requires StoredUser(u) && EmailFreeFor(users, id, u.email)
      modifies this`users
      ensures Valid()
      ensures users == old(users)[id := u]
    {
      StoreUserKeepsTablesValid(users, products, categories, orders, orderItems, nextId, id, u);
      users := users[id := u];
    }

    /** Deletes a user document. */
    method RemoveUser(id: Id)
      requires Valid()
      modifies this`users
      ensures Valid()
      ensures users == old(users) - {id}
    {
      users := users - {id};
    }

    /** Saves a product under an issued id; the schema admits only a valid one. */
    method PutProduct(id: Id, p: Product)
      requires Valid() && id < nextId && ValidProduct(p)
      modifies this`products
      ensures Valid()
      ensures products == old(products)[id := p]
    {
      products := products[id := p];
    }

    /** Saves a category under an issued id. */
    method PutCategory(id: Id, c: Category)
      requires Valid() && id < nextId
      modifies this`categories
      ensures Valid()
      ensures categories == old(categories)[id := c]
    {
      categories := categories[id := c];
    }

    /** Deletes a category document. */
    method RemoveCategory(id: Id)
      requires Valid()
      modifies this`categories
      ensures Valid()
      ensures categories == old(categories) - {id}
    {
      categories := categories - {id};
    }

    /** Saves an order line under an issued id. */
    method PutOrderItem(id: Id, item: OrderItem)
      requires Valid() && id < nextId
      modifies this`orderItems
      ensures Valid()
      ensures orderItems == old(orderItems)[id := item]
    {
      orderItems := orderItems[id := item];
    }

    /** Saves an order header under an issued id; the schema admits only a
        valid one. */
    method PutOrder(id: Id, o: Order)
      requires Valid() && id < nextId && ValidOrder(o)
      modifies this`orders
      ensures Valid()
      ensures orders == old(orders)[id := o]
    {
      orders := orders[id := o];
    }

    /** Deletes an order header (its lines stay). */
    method RemoveOrder(id: Id)
      requires Valid()
      modifies this`orders
      ensures Valid()
      ensures orders == old(orders) - {id}
    {
      orders := orders - {id};
    }
  }

  /** The nodemailer transport, reduced to what it has sent. */
  class Mailer {
    var sent: seq<Mail>

    constructor ()
      ensures sent == []
    {
      sent := [];
    }

    method Send(m: Mail)
      modifies this
      ensures sent == old(sent) + [m]
    {
      sent := sent + [m];
    }
  }
}
