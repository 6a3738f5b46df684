/**
 * The tool endpoints: which permissions and serializer each action uses,
 * the base queryset, and the create hook that attaches a new tool to the
 * provider's shop.
 */
module ToolApi {
  import opened Wrappers
  import Http
  import Users
  import Shops
  import Tools
  import Inventory
  import ToolPermissions
  import UserSerializers

  datatype Action = List | Retrieve | Nearby | Create | Update | PartialUpdate | Destroy

  datatype Permission = AllowAny | IsAuthenticated | IsToolOwnerOrReadOnly

  datatype Serializer = ToolSerializer | ToolCreateSerializer

  /** `get_permissions`. */
  function PermissionsFor(a: Action): (ps: seq<Permission>)
    ensures a in {List, Retrieve, Nearby} <==> ps == [AllowAny]
    ensures a !in {List, Retrieve, Nearby} <==> ps == [IsAuthenticated, IsToolOwnerOrReadOnly]
  {
    if a == List || a == Retrieve || a == Nearby then [AllowAny]
    else [IsAuthenticated, IsToolOwnerOrReadOnly]
  }

  /** `get_serializer_class`. */
  function SerializerFor(a: Action): (s: Serializer)
    ensures s == ToolCreateSerializer <==> a == Create
  {
    if a == Create then ToolCreateSerializer else ToolSerializer
  }

  /** The HTTP method each action is reached by. */
  function MethodOf(a: Action): ToolPermissions.HttpMethod
  {
    match a
    case List => ToolPermissions.Get
    case Retrieve => ToolPermissions.Get
    case Nearby => ToolPermissions.Get
    case Create => ToolPermissions.Post
    case Update => ToolPermissions.Put
    case PartialUpdate => ToolPermissions.Patch
    case Destroy => ToolPermissions.Delete
  }

  /** The actions that look up one tool (`get_object`), the only ones on which DRF runs object permissions. */
  predicate IsDetail(a: Action)
  {
    a in {Retrieve, Update, PartialUpdate, Destroy}
  }

  /**
   * Whether one permission class lets a request on tool `t` through (`caller`
   * is `None` when anonymous). `IsToolOwnerOrReadOnly` only defines
   * `has_object_permission`; its `has_permission` is the base class's, which
   * allows, so on a list-level action (`create` included) it lets everyone through.
   */
  predicate Passes(p: Permission, a: Action, caller: Option<nat>, t: Tools.Tool)
  {
    match p
    case AllowAny => true
    case IsAuthenticated => caller.Some?
    case IsToolOwnerOrReadOnly => !IsDetail(a) || ToolPermissions.HasObjectPermission(MethodOf(a), caller, t)
  }

  /** Every permission of the action lets the request through. */
  predicate Permitted(a: Action, caller: Option<nat>, t: Tools.Tool)
  {
    forall k :: 0 <= k < |PermissionsFor(a)| ==> Passes(PermissionsFor(a)[k], a, caller, t)
  }

  /**
   * Anyone, signed in or not, may list and retrieve; any signed-in user may
   * create (the shop check is the create hook's); only the owner of the
   * tool's shop may update or delete it.
   */
  lemma AccessByAction(a: Action, caller: Option<nat>, t: Tools.Tool)
    ensures a in {List, Retrieve, Nearby} ==> Permitted(a, caller, t)
    ensures a == Create ==> (Permitted(a, caller, t) <==> caller.Some?)
    ensures a in {Update, PartialUpdate, Destroy} ==> (Permitted(a, caller, t) <==> caller == Some(t.shop.owner))
  {
    var ps := PermissionsFor(a);
    if a !in {List, Retrieve, Nearby} && Permitted(a, caller, t) {
      assert Passes(ps[0], a, caller, t);
      assert Passes(ps[1], a, caller, t);
    }
  }

  /** The base queryset: the available tools, in table order, as positions. */
  function BaseQueryset(tools: seq<Tools.Tool>): (r: seq<nat>)
    ensures forall k :: 0 <= k < |r| ==> r[k] < |tools| && tools[r[k]].isAvailable
    ensures forall i :: 0 <= i < |tools| && tools[i].isAvailable ==> i in r
    ensures forall k, l :: 0 <= k < l < |r| ==> r[k] < r[l]
  {
    if tools == [] then []
    else
      var n := |tools| - 1;
      var init := BaseQueryset(tools[..n]);
      if tools[n].isAvailable then init + [n] else init
  }

  /**
   * `user.shops.first()`: with the shops in primary-key order (the order
   * Django gives an unordered `first()`), the first one the user owns.
   */
  function FirstShop(shops: seq<Shops.Shop>, owner: nat): (r: Option<Shops.Shop>)
    reads shops
    ensures r.None? <==> forall i :: 0 <= i < |shops| ==> shops[i].owner != owner
    ensures r.Some? ==>
      r.value.owner == owner && exists i :: 0 <= i < |shops| && shops[i] == r.value && forall j :: 0 <= j < i ==> shops[j].owner != owner
  {
    if shops == [] then None
    else if shops[0].owner == owner then Some(shops[0])
    else
      var r := FirstShop(shops[1..], owner);
      if r.Some? then
        var i :| 0 <= i < |shops[1..]| && shops[1..][i] == r.value && forall j :: 0 <= j < i ==> shops[1..][j].owner != owner;
        assert shops[i + 1] == r.value;
        r
      else r
  }

  /** The profile's `has_shop` flag is exactly whether the create hook finds a first shop. */
  lemma HasShopIffFirstShop(shops: seq<Shops.Shop>, owner: nat)
    ensures UserSerializers.HasShop(shops, owner) <==> FirstShop(shops, owner).Some?
  {
  }

  /** The images list stored with a new tool: the uploaded file's URL, or nothing. */
  function ImagesFor(uploadedUrl: Option<string>): (images: seq<string>)
    ensures |images| <= 1
    ensures uploadedUrl.Some? ==> images == [uploadedUrl.value]
    ensures uploadedUrl.None? <==> images == []
  {
    if uploadedUrl.Some? then [uploadedUrl.value] else []
  }

  /**
   * The status the create hook's two guards answer with, as written: the
   * validation error class is not imported, so raising it is a NameError
   * and the request fails with 500.
   */
  function GuardAsWritten(caller: Users.User, shops: seq<Shops.Shop>): (code: Option<int>)
    reads shops
    ensures code.Some? ==> code.value == Http.ServerError
    ensures code.None? <==> caller.userType == Users.Provider && FirstShop(shops, caller.id).Some?
  {
    if caller.userType != Users.Provider then Some(Http.ServerError)
    else if FirstShop(shops, caller.id).None? then Some(Http.ServerError)
    else None
  }

  /** The guards as meant: a validation error, which is answered with 400. */
  function Guard(caller: Users.User, shops: seq<Shops.Shop>): (code: Option<int>)
    reads shops
    ensures code.Some? ==> code.value == Http.BadRequest
    ensures caller.userType != Users.Provider ==> code == Some(Http.BadRequest)
    ensures caller.userType == Users.Provider && FirstShop(shops, caller.id).None? ==> code == Some(Http.BadRequest)
    ensures code.None? <==> caller.userType == Users.Provider && FirstShop(shops, caller.id).Some?
  {
    if caller.userType != Users.Provider then Some(Http.BadRequest)
    else if FirstShop(shops, caller.id).None? then Some(Http.BadRequest)
    else None
  }

  /** The two guards refuse the same requests; as written the refusal is a server error instead of a 400. */
  lemma GuardAsWrittenRefusesWithServerError(caller: Users.User, shops: seq<Shops.Shop>)
    ensures GuardAsWritten(caller, shops).Some? <==> Guard(caller, shops).Some?
    ensures caller.userType == Users.Renter ==>
      GuardAsWritten(caller, shops) == Some(Http.ServerError) && Guard(caller, shops) == Some(Http.BadRequest)
  {
  }

  /**
   * `perform_create`: refuse a renter and a provider with no shop; then save
   * the validated tool `t` with the user's first shop and the images list
   * (`uploadedUrl` is the storage URL of the uploaded image, if any).
   */
  method PerformCreate(db: Inventory.Marketplace, caller: Users.User, shops: seq<Shops.Shop>,
                       t: Tools.Tool, uploadedUrl: Option<string>) returns (code: int, id: Option<nat>)
    requires db.Valid()
    requires t.quantityAvailable >= 0
    modifies db
    ensures db.Valid()
    ensures Guard(caller, shops).Some? ==>
      code == Guard(caller, shops).value && id.None? && db.tools == old(db.tools) && db.stock == old(db.stock)
    ensures Guard(caller, shops).None? ==>
      && code == Http.Created && id == Some(|old(db.tools)|)
      && db.tools == old(db.tools) + [t.(shop := FirstShop(shops, caller.id).value, images := ImagesFor(uploadedUrl))]
    ensures db.bookings == old(db.bookings)
  {
    var refused := Guard(caller, shops);
    if refused.Some? {
      return refused.value, None;
    }
    var shop := FirstShop(shops, caller.id).value;
    var created := db.AddTool(t.(shop := shop, images := ImagesFor(uploadedUrl)));
    return Http.Created, Some(created);
  }
}
