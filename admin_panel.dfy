/** The administration panel: the role shown for a user (the highest
    ranked of the user's roles), the order status choices, and the product
    forms (create, edit, cancel) with the requests their handlers send.
    Replies and the delete confirmation are parameters. */
module AdminPanel {
  import opened Wrappers
  import opened ShopData

  // ---------------------------------------------------------------------
  // The displayed role

  /** An element of `user.roles` as the service serialises it. */
  datatype RoleRef = RoleRef(name: string)

  /** `rolePriority[name] || 0` */
  function Priority(name: string): nat {
    if name == "ROLE_ADMIN" then 2 else if name == "ROLE_USER" then 1 else 0
  }

  /** One step of the reduce: the current role replaces the best so far
      only when it ranks strictly higher. */
  function Pick(highest: RoleRef, current: RoleRef): RoleRef {
    if Priority(current.name) > Priority(highest.name) then current else highest
  }

  /** `roles.reduce(pick)` without an initial value: a left fold that
      starts from the first element. */
  function Highest(roles: seq<RoleRef>): RoleRef
    requires |roles| > 0
  {
    if |roles| == 1 then roles[0] else Pick(Highest(roles[..|roles| - 1]), roles[|roles| - 1])
  }

  /** getDisplayRole */
  function DisplayRole(roles: Option<seq<RoleRef>>): string {
    if roles.None? || |roles.value| == 0 then "ROLE_USER" else Highest(roles.value).name
  }

  /** Index k holds the first element of maximal priority. */
  predicate FirstMaximal(roles: seq<RoleRef>, k: int) {
    && 0 <= k < |roles|
    && (forall j :: 0 <= j < |roles| ==> Priority(roles[j].name) <= Priority(roles[k].name))
    && (forall j :: 0 <= j < k ==> Priority(roles[j].name) < Priority(roles[k].name))
  }

  /** Appending one role keeps the first maximal element, unless the new
      role ranks strictly higher. */
  lemma ExtendFirstMaximal(init: seq<RoleRef>, last: RoleRef, k: int)
    requires FirstMaximal(init, k)
    ensures Priority(last.name) > Priority(init[k].name) ==> FirstMaximal(init + [last], |init|)
    ensures Priority(last.name) <= Priority(init[k].name) ==> FirstMaximal(init + [last], k)
  {
    var roles := init + [last];
    assert forall j :: 0 <= j < |init| ==> roles[j] == init[j];
  }

  /** The fold returns the first element of maximal priority: every role
      ranks no higher and every earlier one strictly lower. */
  lemma {:induction false} HighestIsFirstMaximal(roles: seq<RoleRef>)
    requires |roles| > 0
    ensures exists k :: FirstMaximal(roles, k) && Highest(roles) == roles[k]
  {
    if |roles| == 1 {
      assert FirstMaximal(roles, 0);
    } else {
      var init := roles[..|roles| - 1];
      var last := roles[|roles| - 1];
      assert roles == init + [last];
      HighestIsFirstMaximal(init);
      var k :| FirstMaximal(init, k) && Highest(init) == init[k];
      ExtendFirstMaximal(init, last, k);
      if Priority(last.name) > Priority(init[k].name) {
        assert Highest(roles) == roles[|init|];
      } else {
        assert Highest(roles) == roles[k];
      }
    }
  }

  /** A missing or empty role list shows as an ordinary user. */
  lemma NoRolesShowUser(roles: Option<seq<RoleRef>>)
    requires roles.None? || roles.value == []
    ensures DisplayRole(roles) == "ROLE_USER"
  {
  }

  /** Otherwise the shown role is the name of a role of the list, of
      maximal priority, and the first such. */
  lemma DisplayRoleFromList(roles: seq<RoleRef>)
    requires roles != []
    ensures exists k :: FirstMaximal(roles, k) && DisplayRole(Some(roles)) == roles[k].name
  {
    HighestIsFirstMaximal(roles);
  }

  /** An administrator role anywhere wins; when no name is known, the first
      one shows. */
  lemma DisplayRoleCases(roles: seq<RoleRef>)
    requires roles != []
    ensures (exists i :: 0 <= i < |roles| && roles[i].name == "ROLE_ADMIN") ==> DisplayRole(Some(roles)) == "ROLE_ADMIN"
    ensures (forall i :: 0 <= i < |roles| ==> Priority(roles[i].name) == 0) ==> DisplayRole(Some(roles)) == roles[0].name
  {
    HighestIsFirstMaximal(roles);
    var k :| FirstMaximal(roles, k) && Highest(roles) == roles[k];
    if exists i :: 0 <= i < |roles| && roles[i].name == "ROLE_ADMIN" {
      var i :| 0 <= i < |roles| && roles[i].name == "ROLE_ADMIN";
      assert Priority(roles[i].name) == 2;
    }
    if forall i :: 0 <= i < |roles| ==> Priority(roles[i].name) == 0 {
      if k > 0 {
        assert Priority(roles[0].name) < Priority(roles[k].name);
      }
    }
  }

  // ---------------------------------------------------------------------
  // Orders

  /** The choices of the status selector, in order. */
  const StatusOptions := ["NEW", "PROCESSING", "SHIPPED", "DELIVERED", "CANCELLED", "COMPLETED"]

  /** The choices of the role selector. */
  const RoleOptions := ["ROLE_USER", "ROLE_ADMIN"]

  /** What a handler sends, if anything. */
  datatype AdminRequest =
    | NoRequest
    | SetOrderStatus(orderId: int, status: string)     // PUT /admin/orders/{id}/status
    | SetUserRole(userId: int, role: string)           // PUT /admin/users/{id}/role
    | CreateProduct(form: ProductForm)                 // POST /admin/products
    | UpdateProduct(productId: int, form: ProductForm) // PUT /admin/products/{id}
    | DeleteProduct(productId: int)                    // DELETE /admin/products/{id}

  /** handleUpdateOrderStatus passes the chosen status as it is. */
  function StatusChange(orderId: int, status: string): AdminRequest {
    SetOrderStatus(orderId, status)
  }

  /** handleUpdateUserRole passes the selector's value as the `role` query
      parameter, as it is. */
  function RoleChange(userId: int, role: string): AdminRequest {
    SetUserRole(userId, role)
  }

  /** The complete button: always COMPLETED, one of the selector's own
      choices, whatever the order's current status. */
  function CompleteAction(orderId: int): (r: AdminRequest)
    ensures r == StatusChange(orderId, "COMPLETED")
    ensures r.status in StatusOptions
  {
    StatusChange(orderId, "COMPLETED")
  }

  /** The displayed role is one of the selector's choices unless every
      role of the user is unknown. */
  lemma DisplayedRoleSelectable(roles: Option<seq<RoleRef>>)
    ensures DisplayRole(roles) in RoleOptions
            || (roles.Some? && forall i :: 0 <= i < |roles.value| ==> Priority(roles.value[i].name) == 0)
  {
    if roles.Some? && roles.value != [] {
      DisplayRoleFromList(roles.value);
    }
  }

  // ---------------------------------------------------------------------
  // Product forms

  /** A form field: bound to a string input, but handleStartEdit fills it
      with whatever the product holds (a number, or null). */
  datatype Input = Str(s: string) | Num(n: int) | Null

  datatype ProductForm = ProductForm(name: Input, description: Input, price: Input, categoryId: Input)

  const EmptyForm := ProductForm(Str(""), Str(""), Str(""), Str(""))

  /** handleStartEdit's copy of a product; `category?.id || ''` turns a
      missing category, and the id 0, into ''. */
  function EditFormOf(p: Product): ProductForm {
    ProductForm(
      Str(p.name),
      if p.description.Some? then Str(p.description.value) else Null,
      Num(p.price),
      if p.category.Some? && p.category.value.id != 0 then Num(p.category.value.id) else Str(""))
  }

  class AdminPanelPage {
    var newProduct: ProductForm
    var editingProduct: Option<Product>
    var editForm: ProductForm

    constructor ()
      ensures newProduct == EmptyForm && editingProduct == None && editForm == EmptyForm
    {
      newProduct := EmptyForm;
      editingProduct := None;
      editForm := EmptyForm;
    }

    method StartEdit(p: Product)
      modifies this
      ensures editingProduct == Some(p) && editForm == EditFormOf(p)
      ensures newProduct == old(newProduct)
    {
      editingProduct := Some(p);
      editForm := EditFormOf(p);
    }

    method CancelEdit()
      modifies this
      ensures editingProduct == None && editForm == EmptyForm
      ensures newProduct == old(newProduct)
    {
      editingProduct := None;
      editForm := EmptyForm;
    }

    /** handleCreateProduct; `ok` is whether the reply reports success. */
    method SubmitCreate(ok: bool) returns (sent: AdminRequest)
      modifies this
      ensures sent == CreateProduct(old(newProduct))
      ensures newProduct == if ok then EmptyForm else old(newProduct)
      ensures editingProduct == old(editingProduct) && editForm == old(editForm)
    {
      sent := CreateProduct(newProduct);
      if ok {
        newProduct := EmptyForm;
      }
    }

    /** handleUpdateProduct: the edit form exists only while a product is
        being edited; a success ends the edit as Cancel does. */
    method SubmitUpdate(ok: bool) returns (sent: AdminRequest)
      requires editingProduct.Some?
      modifies this
      ensures sent == UpdateProduct(old(editingProduct).value.id, old(editForm))
      ensures ok ==> editingProduct == None && editForm == EmptyForm
      ensures !ok ==> editingProduct == old(editingProduct) && editForm == old(editForm)
      ensures newProduct == old(newProduct)
    {
      sent := UpdateProduct(editingProduct.value.id, editForm);
      if ok {
        CancelEdit();
      }
    }

    /** handleDeleteProduct: nothing is sent unless the user confirms. */
    method Delete(productId: int, confirmed: bool) returns (sent: AdminRequest)
      ensures sent == if confirmed then DeleteProduct(productId) else NoRequest
    {
      if !confirmed {
        return NoRequest;
      }
      return DeleteProduct(productId);
    }
  }
}
