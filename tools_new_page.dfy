/**
 * The tool-creation page: who is sent elsewhere, the form's initial
 * values, and the multipart fields it posts.
 */
module NewToolPage {
  import opened Wrappers
  import Users
  import Shops
  import AuthContext
  import ApiClient
  import ToolApi
  import UserSerializers
  import AdminGuard

  /** The form's text fields and their initial values. */
  const InitialFields: map<string, string> := map[
    "name" := "", "description" := "", "price_per_day" := "", "deposit_amount" := "",
    "quantity_available" := "1", "category_id" := ""]

  /** The page's redirect, in priority order. */
  function Redirect(user: Option<AuthContext.ClientUser>): (r: Option<string>)
    ensures user.None? ==> r == Some("/login")
    ensures user.Some? && user.value.userType == Users.Renter ==> r == Some("/tools")
    ensures user.Some? && user.value.userType == Users.Provider ==>
      (r == Some("/shops/new") <==> !AuthContext.Flag(user.value.hasShop))
    ensures r.None? <==> user.Some? && user.value.userType == Users.Provider && AuthContext.Flag(user.value.hasShop)
  {
    var f := AuthContext.FlagsOf(user);
    if !f.isAuthenticated then Some("/login")
    else if f.isRenter then Some("/tools")
    else if !f.hasShop && f.isProvider then Some("/shops/new")
    else None
  }

  /** Nothing is rendered without a user. */
  function Render(user: Option<AuthContext.ClientUser>): (v: AdminGuard.View)
    ensures v == AdminGuard.Nothing <==> user.None?
    ensures v != AdminGuard.Skeleton
  {
    if user.None? then AdminGuard.Nothing else AdminGuard.Children
  }

  /** The value of a text field, empty when it was never set. */
  function Field(fields: map<string, string>, k: string): string
  {
    if k in fields then fields[k] else ""
  }

  /**
   * The multipart body, in append order: the five text fields, availability
   * always "true", then the category only when one is selected and the
   * image only when a file was chosen (`image` is its name).
   */
  function FormFields(fields: map<string, string>, image: Option<string>): (fs: seq<(string, string)>)
    ensures |fs| >= 6 && fs[5] == ("is_available", "true")
    ensures fs[..5] == [("name", Field(fields, "name")), ("description", Field(fields, "description")),
                       ("price_per_day", Field(fields, "price_per_day")),
                       ("deposit_amount", Field(fields, "deposit_amount")),
                       ("quantity_available", Field(fields, "quantity_available"))]
    ensures |fs| == 6 + (if Field(fields, "category_id") != "" then 1 else 0) + (if image.Some? then 1 else 0)
    ensures Field(fields, "category_id") != "" ==> fs[6] == ("category", Field(fields, "category_id"))
    ensures image.Some? ==> fs[|fs| - 1] == ("image", image.value)
  {
    var base := [("name", Field(fields, "name")), ("description", Field(fields, "description")),
                 ("price_per_day", Field(fields, "price_per_day")),
                 ("deposit_amount", Field(fields, "deposit_amount")),
                 ("quantity_available", Field(fields, "quantity_available")),
                 ("is_available", "true")];
    var category := if Field(fields, "category_id") != "" then [("category", Field(fields, "category_id"))] else [];
    var file := if image.Some? then [("image", image.value)] else [];
    base + category + file
  }

  class Page {
    var fields: map<string, string>
    var image: Option<string>
    var submitting: bool

    /** A blank form: every text field empty except a quantity of one, and no file. */
    constructor ()
      ensures fields == InitialFields && image.None? && !submitting
      ensures Field(fields, "quantity_available") == "1" && Field(fields, "category_id") == ""
    {
      fields := InitialFields;
      image := None;
      submitting := false;
    }

    /** `handleChange`: the named field takes the typed value; the others keep theirs. */
    method Change(name: string, value: string)
      modifies this
      ensures fields == old(fields)[name := value]
      ensures Field(fields, name) == value
      ensures forall k :: k != name ==> Field(fields, k) == Field(old(fields), k)
      ensures image == old(image) && submitting == old(submitting)
    {
      fields := fields[name := value];
    }

    /** `handleImageChange`: a chosen file replaces the image; closing the picker keeps the old one. */
    method ChangeImage(file: Option<string>)
      modifies this
      ensures image == (if file.Some? then file else old(image))
      ensures fields == old(fields) && submitting == old(submitting)
    {
      if file.Some? {
        image := file;
      }
    }

    /**
     * `handleSubmit`: the form is posted as multipart data, so no JSON
     * content type is set; on success the provider is sent to the catalogue.
     */
    method Submit(baseUrl: string, token: Option<string>, created: bool)
      returns (url: string, headers: map<string, string>, body: ApiClient.Body, navigateTo: Option<string>)
      modifies this
      ensures fields == old(fields) && image == old(image) && !submitting
      ensures url == baseUrl + "/api/tools/"
      ensures body == ApiClient.Form(FormFields(fields, image))
      ensures ApiClient.ContentType !in headers
      ensures navigateTo == (if created then Some("/tools") else None)
    {
      submitting := true;
      var data := ApiClient.FormData(FormFields(fields, image));
      url, headers, body := ApiClient.ToolRequest(baseUrl, token.GetOr(""), None, data);
      navigateTo := if created then Some("/tools") else None;
      submitting := false;
    }
  }

  /**
   * A provider the page lets through, whose `has_shop` came from the
   * server's profile, passes the server's create guard.
   */
  lemma UnredirectedProviderPassesGuard(caller: Users.User, shops: seq<Shops.Shop>, u: AuthContext.ClientUser)
    requires u.userType == caller.userType
    requires u.hasShop == Some(UserSerializers.HasShop(shops, caller.id))
    requires Redirect(Some(u)).None?
    ensures ToolApi.Guard(caller, shops).None?
  {
    ToolApi.HasShopIffFirstShop(shops, caller.id);
  }
}
