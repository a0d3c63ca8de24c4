/**
 * products/product_management.py: who may edit a product, and the add, edit and soft-delete
 * views. All three views sit behind the sign-in and artisan checks; add hangs the new product on
 * the creator's artisan profile and, if the profile has one, on its team.
 */
module ProductManagement {

  import opened Basics
  import opened Catalog
  import opened Carts
  import opened Accounts
  import opened AccessDecorators
  import opened ProductForms
  import opened Shop
  import Teams
  import CartViews

  /** `team.has_member(user)`: the user has a membership row in the team. */
  predicate IsMember(members: map<TeamId, map<UserId, string>>, t: TeamId, u: UserId) {
    t in members && u in members[t]
  }

  /**
   * `user_can_edit_product`: staff, then the user behind the product's artisan, then a member
   * of the product's team if it has one; nobody else.
   */
  function CanEdit(user: User, p: Product, members: map<TeamId, map<UserId, string>>): (r: bool)
    ensures r <==> user.isStaff || p.artisanUser == user.id || (p.team.Some? && IsMember(members, p.team.value, user.id))
  {
    if user.isStaff then true
    else if p.artisanUser == user.id then true
    else if p.team.Some? && IsMember(members, p.team.value, user.id) then true
    else false
  }

  /**
   * Only the product's own team counts: two membership tables that agree on that team give the
   * same answer, and a product without a team is editable only by staff and its artisan.
   */
  lemma CanEditDependsOnOwnTeam(user: User, p: Product, m1: map<TeamId, map<UserId, string>>, m2: map<TeamId, map<UserId, string>>)
    requires p.team.Some? ==> (IsMember(m1, p.team.value, user.id) <==> IsMember(m2, p.team.value, user.id))
    ensures CanEdit(user, p, m1) == CanEdit(user, p, m2)
    ensures p.team.None? ==> (CanEdit(user, p, m1) <==> user.isStaff || p.artisanUser == user.id)
  {
  }

  /**
   * A member taken out of a team loses the right to edit that team's products, unless they
   * are staff or the product's own artisan.
   */
  lemma RemovedMemberLosesEdit(user: User, p: Product, members: map<TeamId, map<UserId, string>>, t: TeamId)
    requires t in members && p.team == Some(t)
    requires !user.isStaff && p.artisanUser != user.id
    ensures !CanEdit(user, p, members[t := members[t] - {user.id}])
  {
    var after := members[t := members[t] - {user.id}];
    assert !IsMember(after, t, user.id);
  }

  /** What a product view ends with. */
  datatype ManageOutcome =
    | Redirected(gate: Gate)
    | NotFound
    | MethodNotAllowed
    | ShowForm
    | FormInvalid
    | NoPermission
    | ProductAdded(id: ProductId)
    | ProductUpdated
    | ProductDiscontinued

  /**
   * The row `add_product_view` saves: the cleaned form fields, the creator's artisan profile,
   * and that profile's team when it has one. The pricing columns are left empty.
   */
  function NewProduct(id: ProductId, profile: Teams.Profile, u: UserId, d: ProductDraft): (p: Product)
    requires FormValid(d)
    ensures p.id == id && p.artisan == profile.id && p.artisanUser == u && p.team == profile.team
    ensures MeetsValidators(p)
  {
    Product(id, profile.id, u, profile.team, Strip(d.name), d.price.value, d.cost, d.stock.value, d.status,
      None, None, None)
  }

  /** `form.save()` on an existing product: the form's fields are overwritten, the rest is kept. */
  function Edited(p: Product, d: ProductDraft): (q: Product)
    requires FormValid(d)
    ensures q.id == p.id && q.artisan == p.artisan && q.artisanUser == p.artisanUser && q.team == p.team
    ensures q.original == p.original && q.discount == p.discount && q.selling == p.selling
    ensures MeetsValidators(q) && q.status == d.status
  {
    p.(name := Strip(d.name), price := d.price.value, cost := d.cost, stock := d.stock.value, status := d.status)
  }

  /**
   * Whoever adds a product may edit it afterwards, and so may every member of the team the
   * creator belonged to at the time.
   */
  lemma AddedProductEditable(
    creator: User, member: User, id: ProductId, profile: Teams.Profile, d: ProductDraft,
    members: map<TeamId, map<UserId, string>>)
    requires FormValid(d)
    ensures CanEdit(creator, NewProduct(id, profile, creator.id, d), members)
    ensures profile.team.Some? && IsMember(members, profile.team.value, member.id) ==>
      CanEdit(member, NewProduct(id, profile, creator.id, d), members)
  {
  }

  /** Adding a product with a fresh id keeps every store invariant. */
  lemma AddKeepsValid(
    products: map<ProductId, Product>, carts: map<UserId, seq<CartLine>>, next: ProductId, p: Product)
    requires forall pid :: pid in products ==> products[pid].id == pid && pid < next
    requires forall u :: u in carts ==> WellFormed(carts[u], products)
    requires p.id == next
    ensures var after := products[next := p];
      && (forall pid :: pid in after ==> after[pid].id == pid && pid < next + 1)
      && (forall u :: u in carts ==> WellFormed(carts[u], after))
  {
    var after := products[next := p];
    forall u | u in carts
      ensures WellFormed(carts[u], after)
    {
      WellFormedMoreProducts(carts[u], products, after);
    }
  }

  /**
   * `add_product_view`. The creator's artisan profile is looked up first (404 without one);
   * `post` is None for a GET.
   */
  method AddProduct(st: Store, reg: Teams.TeamRegistry, req: Requester, post: Option<ProductDraft>)
    returns (outcome: ManageOutcome)
    requires st.Valid()
    modifies st
    ensures st.Valid()
    ensures outcome == (
      if ArtisanRequired(req) != Admit then Redirected(ArtisanRequired(req))
      else if req.user.id !in reg.profiles then NotFound
      else if post.None? then ShowForm
      else if !FormValid(post.value) then FormInvalid
      else ProductAdded(old(st.nextProductId)))
    ensures outcome.ProductAdded? ==>
      && st.products == old(st.products)[outcome.id := NewProduct(outcome.id, reg.profiles[req.user.id], req.user.id, post.value)]
      && outcome.id !in old(st.products)
      && st.nextProductId == old(st.nextProductId) + 1
    ensures !outcome.ProductAdded? ==> st.products == old(st.products) && st.nextProductId == old(st.nextProductId)
    ensures st.carts == old(st.carts) && st.orders == old(st.orders) && st.orderItems == old(st.orderItems)
    ensures st.shippingSessions == old(st.shippingSessions)
  {
    var g := ArtisanRequired(req);
    if g != Admit {
      return Redirected(g);
    }
    var u := req.user.id;
    if u !in reg.profiles {
      return NotFound;
    }
    var profile := reg.profiles[u];
    if post.None? {
      return ShowForm;
    }
    if !FormValid(post.value) {
      return FormInvalid;
    }
    var id := st.nextProductId;
    var p := NewProduct(id, profile, u, post.value);
    AddKeepsValid(st.products, st.carts, id, p);
    st.products := st.products[id := p];
    st.nextProductId := id + 1;
    outcome := ProductAdded(id);
  }

  /** Changing the columns of an existing product keeps every store invariant. */
  lemma ReplaceKeepsValid(
    products: map<ProductId, Product>, carts: map<UserId, seq<CartLine>>, next: ProductId, pid: ProductId, q: Product)
    requires forall k :: k in products ==> products[k].id == k && k < next
    requires forall u :: u in carts ==> WellFormed(carts[u], products)
    requires pid in products && q.id == pid
    ensures var after := products[pid := q];
      && (forall k :: k in after ==> after[k].id == k && k < next)
      && (forall u :: u in carts ==> WellFormed(carts[u], after))
  {
    var after := products[pid := q];
    forall u | u in carts
      ensures WellFormed(carts[u], after)
    {
      WellFormedMoreProducts(carts[u], products, after);
    }
  }

  /** `edit_product_view`: only someone who may edit the product gets to the form. */
  method EditProduct(st: Store, reg: Teams.TeamRegistry, req: Requester, pid: ProductId, post: Option<ProductDraft>)
    returns (outcome: ManageOutcome)
    requires st.Valid()
    modifies st
    ensures st.Valid()
    ensures outcome == (
      if ArtisanRequired(req) != Admit then Redirected(ArtisanRequired(req))
      else if pid !in old(st.products) then NotFound
      else if !CanEdit(req.user, old(st.products)[pid], reg.members) then NoPermission
      else if post.None? then ShowForm
      else if !FormValid(post.value) then FormInvalid
      else ProductUpdated)
    ensures st.products == if outcome == ProductUpdated
      then old(st.products)[pid := Edited(old(st.products)[pid], post.value)]
      else old(st.products)
    ensures st.carts == old(st.carts) && st.orders == old(st.orders) && st.orderItems == old(st.orderItems)
    ensures st.shippingSessions == old(st.shippingSessions) && st.nextProductId == old(st.nextProductId)
  {
    var g := ArtisanRequired(req);
    if g != Admit {
      return Redirected(g);
    }
    if pid !in st.products {
      return NotFound;
    }
    var p := st.products[pid];
    if !CanEdit(req.user, p, reg.members) {
      return NoPermission;
    }
    if post.None? {
      return ShowForm;
    }
    if !FormValid(post.value) {
      return FormInvalid;
    }
    var q := Edited(p, post.value);
    ReplaceKeepsValid(st.products, st.carts, st.nextProductId, pid, q);
    st.products := st.products[pid := q];
    outcome := ProductUpdated;
  }

  /**
   * `delete_product_view`, which accepts only POST. The delete is soft: the product stays, with
   * status 'discontinued', and nothing else about it changes.
   */
  method DeleteProduct(st: Store, reg: Teams.TeamRegistry, req: Requester, pid: ProductId, isPost: bool)
    returns (outcome: ManageOutcome)
    requires st.Valid()
    modifies st
    ensures st.Valid()
    ensures outcome == (
      if ArtisanRequired(req) != Admit then Redirected(ArtisanRequired(req))
      else if !isPost then MethodNotAllowed
      else if pid !in old(st.products) then NotFound
      else if !CanEdit(req.user, old(st.products)[pid], reg.members) then NoPermission
      else ProductDiscontinued)
    ensures st.products == if outcome == ProductDiscontinued
      then old(st.products)[pid := old(st.products)[pid].(status := Discontinued)]
      else old(st.products)
    ensures st.carts == old(st.carts) && st.orders == old(st.orders) && st.orderItems == old(st.orderItems)
    ensures st.shippingSessions == old(st.shippingSessions) && st.nextProductId == old(st.nextProductId)
  {
    var g := ArtisanRequired(req);
    if g != Admit {
      return Redirected(g);
    }
    if !isPost {
      return MethodNotAllowed;
    }
    if pid !in st.products {
      return NotFound;
    }
    var p := st.products[pid];
    if !CanEdit(req.user, p, reg.members) {
      return NoPermission;
    }
    var q := p.(status := Discontinued);
    ReplaceKeepsValid(st.products, st.carts, st.nextProductId, pid, q);
    st.products := st.products[pid := q];
    outcome := ProductDiscontinued;
  }

  /**
   * The staff branch of the permission test is reached only by staff who are also artisans:
   * the artisan check in front of every view turns away any other staff member.
   */
  lemma StaffNeedArtisanRole(u: User)
    requires u.isStaff && !IsArtisan(u)
    ensures ArtisanRequired(Authenticated(u)) == ToDashboard
    ensures CanEdit(u, Product(0, 0, u.id + 1, None, "", 1, None, 0, Active, None, None, None), map[])
  {
  }

  /** After a soft delete the product can no longer be added to any cart. */
  lemma DiscontinuedNotForSale(products: map<ProductId, Product>, pid: ProductId, quantity: int)
    requires pid in products
    ensures CartViews.AddCheck(products[pid := products[pid].(status := Discontinued)], pid, quantity) == CartViews.ProductNotFound
  {
  }
}
