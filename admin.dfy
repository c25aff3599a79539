/**
 * The admin dashboard: a guarded page holding its own copy of the catalog,
 * a five-field product form, and add, edit and delete handlers that either
 * apply a whole change or none.
 */
module Admin {
  import opened Text
  import opened Wrappers
  import opened Catalog
  import Session

  /** The image an added product gets when the image field is left empty. */
  const PlaceholderImage := "https://images.unsplash.com/photo-1601784551446-20c9e07cdbdb?w=400&h=400&fit=crop"

  /** The five text fields of the add and edit dialogs. */
  datatype ProductForm = ProductForm(
    name: string,
    category: string,
    price: string,
    image: string,
    description: string)

  const EmptyForm := ProductForm("", "", "", "", "")

  /** Every required field is filled in; the image is optional and the price is not checked further. */
  function Complete(f: ProductForm): (ok: bool)
    ensures ok ==> |f.name| > 0 && |f.category| > 0 && |f.price| > 0 && |f.description| > 0
  {
    f.name != "" && f.category != "" && f.price != "" && f.description != ""
  }

  /** The image field never decides whether a form is accepted, and the empty form never is. */
  lemma ImageOptional(f: ProductForm, image: string)
    ensures Complete(f.(image := image)) == Complete(f)
    ensures !Complete(EmptyForm)
  {
  }

  /** `user?.isAdmin` */
  function IsAdmin(user: Option<Session.User>): (ok: bool)
    ensures user.None? ==> !ok
    ensures ok ==> user.value.isAdmin
  {
    user.Some? && user.value.isAdmin
  }

  /** Only the fixed administrator credentials sign in a user the dashboard lets in. */
  lemma OnlyAdminCredentialsOpenDashboard(email: string, password: string)
    ensures IsAdmin(Session.Authenticate(email, password)) <==>
              email == Session.AdminEmail && password == Session.AdminPassword
  {
  }

  /** The product the add dialog creates at clock reading `now`. */
  function NewProduct(f: ProductForm, now: int): (p: Product)
    ensures p.id == now && p.price == ParseInt(f.price)
    ensures p.name == f.name && p.category == f.category && p.description == f.description
    ensures p.image != "" && (f.image != "" ==> p.image == f.image)
    ensures f.image == "" ==> p.image == PlaceholderImage
  {
    Product(now, f.name, f.category, ParseInt(f.price),
            if f.image == "" then PlaceholderImage else f.image,
            f.description)
  }

  /** `{ ...p, name, category, price: parseInt(price), image: image || p.image, description }` */
  function Edited(p: Product, f: ProductForm): (q: Product)
    ensures q.id == p.id && q.price == ParseInt(f.price)
    ensures q.name == f.name && q.category == f.category && q.description == f.description
    ensures f.image == "" ==> q.image == p.image
    ensures f.image != "" ==> q.image == f.image
  {
    p.(name := f.name, category := f.category, price := ParseInt(f.price),
       image := if f.image == "" then p.image else f.image,
       description := f.description)
  }

  /** The form `startEdit` fills in from a product. */
  function FormOf(p: Product): (f: ProductForm)
    ensures |f.price| > 0 && ParseInt(f.price) == p.price
    ensures Complete(f) <==> p.name != "" && p.category != "" && p.description != ""
    ensures f.name == p.name && f.category == p.category && f.image == p.image
    ensures f.description == p.description
  {
    ParseIntToString(p.price);
    var price := ToString(p.price);
    assert |price| > 0;
    ProductForm(p.name, p.category, price, p.image, p.description)
  }

  /** The callback of the edit handler's `map`. */
  function EditIfMatch(p: Product, id: int, f: ProductForm): Product {
    if p.id == id then Edited(p, f) else p
  }

  /** `products.map(p => p.id === id ? Edited(p, f) : p)` */
  function EditById(products: seq<Product>, id: int, f: ProductForm): (r: seq<Product>)
    ensures |r| == |products|
    ensures forall i :: 0 <= i < |r| ==> r[i] == EditIfMatch(products[i], id, f)
  {
    if products == [] then []
    else
      var rest := EditById(products[1..], id, f);
      assert forall i :: 1 <= i < |products| ==> products[1..][i - 1] == products[i];
      [EditIfMatch(products[0], id, f)] + rest
  }

  /** An edit keeps the list's length, order and ids, and touches only the products with the edited id. */
  lemma EditKeepsShape(products: seq<Product>, id: int, f: ProductForm)
    ensures |EditById(products, id, f)| == |products|
    ensures forall i :: 0 <= i < |products| ==> EditById(products, id, f)[i].id == products[i].id
    ensures forall i :: 0 <= i < |products| && products[i].id != id ==>
              EditById(products, id, f)[i] == products[i]
    ensures forall i :: 0 <= i < |products| && products[i].id == id ==>
              EditById(products, id, f)[i] == Edited(products[i], f)
  {
  }

  /** An edit whose image field is empty keeps every product's image. */
  lemma EditKeepsImages(products: seq<Product>, id: int, f: ProductForm)
    requires f.image == ""
    ensures forall i :: 0 <= i < |products| ==> EditById(products, id, f)[i].image == products[i].image
  {
  }

  /** Saving the form `startEdit` filled in, unchanged, gives back the same product. */
  lemma EditUnchangedForm(p: Product)
    ensures Edited(p, FormOf(p)) == p
  {
    ParseIntToString(p.price);
  }

  /** Opening a product for editing and saving at once leaves the catalog as it was. */
  lemma EditUnchangedCatalog(products: seq<Product>, p: Product)
    requires forall q :: q in products && q.id == p.id ==> q == p
    ensures EditById(products, p.id, FormOf(p)) == products
  {
    EditUnchangedForm(p);
    var r := EditById(products, p.id, FormOf(p));
    forall i | 0 <= i < |products| ensures r[i] == products[i] {
      if products[i].id == p.id {
        assert products[i] in products;
      }
    }
  }

  /** The add handler only checks that the price field is non-empty: "-5" is stored as -5 and ".5", which a number input accepts, as NaN. */
  lemma PriceNotChecked(now: int)
    ensures Complete(ProductForm("Case", IphoneCases, "-5", "", "Clear"))
    ensures NewProduct(ProductForm("Case", IphoneCases, "-5", "", "Clear"), now).price == Int(-5)
    ensures Complete(ProductForm("Case", IphoneCases, ".5", "", "Clear"))
    ensures NewProduct(ProductForm("Case", IphoneCases, ".5", "", "Clear"), now).price == NaN
  {
    ParseIntToString(Int(-5));
    assert ToString(Int(-5)) == "-5";
    TrimStartKeeps(".5");
  }

  /** Deleting the id an add just used removes exactly the added product. */
  lemma DeleteUndoesAdd(products: seq<Product>, f: ProductForm, now: int)
    requires forall q :: q in products ==> q.id != now
    ensures WithoutId(products + [NewProduct(f, now)], now) == products
  {
    FilterConcat(products, [NewProduct(f, now)], IdIsNot(now));
    FilterKeepsAll(products, IdIsNot(now));
    FilterKeepsNone([NewProduct(f, now)], IdIsNot(now));
    assert products + [] == products;
  }

  /** Deleting an id that no product has changes nothing. */
  lemma DeleteAbsentId(products: seq<Product>, id: int)
    requires forall q :: q in products ==> q.id != id
    ensures WithoutId(products, id) == products
  {
    FilterKeepsAll(products, IdIsNot(id));
  }

  /** Delete keeps the remaining products in their order and a second delete changes nothing. */
  lemma DeleteKeepsOrder(a: seq<Product>, b: seq<Product>, id: int)
    ensures WithoutId(a + b, id) == WithoutId(a, id) + WithoutId(b, id)
    ensures WithoutId(WithoutId(a, id), id) == WithoutId(a, id)
  {
    FilterConcat(a, b, IdIsNot(id));
    DeleteAbsentId(WithoutId(a, id), id);
  }

  class AdminPanel {
    var products: seq<Product>
    var isAddDialogOpen: bool
    var editingProduct: Option<Product>
    var isEditDialogOpen: bool
    var name: string
    var category: string
    var price: string
    var image: string
    var description: string

    function Form(): ProductForm
      reads this
    {
      ProductForm(name, category, price, image, description)
    }

    /** The page's first render: an empty catalog, closed dialogs, an empty form. */
    constructor ()
      ensures products == [] && editingProduct == None && Form() == EmptyForm
      ensures !isAddDialogOpen && !isEditDialogOpen
    {
      products := [];
      isAddDialogOpen := false;
      editingProduct := None;
      isEditDialogOpen := false;
      name, category, price, image, description := "", "", "", "", "";
    }

    /** The mount effect: a non-administrator is sent home, an administrator gets the seed catalog. */
    method Mount(user: Option<Session.User>) returns (redirect: Option<string>)
      modifies this`products
      ensures IsAdmin(user) ==> redirect == None && products == Seed()
      ensures !IsAdmin(user) ==> redirect == Some("/") && products == old(products)
    {
      if !IsAdmin(user) {
        return Some("/");
      }
      products := Seed();
      redirect := None;
    }

    method ResetForm()
      modifies this`name, this`category, this`price, this`image, this`description, this`editingProduct
      ensures Form() == EmptyForm && editingProduct == None
    {
      name, category, price, image, description := "", "", "", "", "";
      editingProduct := None;
    }

    /** The add dialog's submit; `now` is the clock reading used as the new id. */
    method AddProduct(now: int) returns (ok: bool)
      modifies this
      ensures ok == Complete(old(Form()))
      ensures ok ==> products == old(products) + [NewProduct(old(Form()), now)]
                     && Form() == EmptyForm && editingProduct == None && !isAddDialogOpen
      ensures !ok ==> products == old(products) && Form() == old(Form())
                      && editingProduct == old(editingProduct) && isAddDialogOpen == old(isAddDialogOpen)
      ensures isEditDialogOpen == old(isEditDialogOpen)
    {
      if !Complete(Form()) {
        return false;
      }
      var added := NewProduct(Form(), now);
      products := products + [added];
      ResetForm();
      isAddDialogOpen := false;
      ok := true;
    }

    /** The edit dialog's submit: rewrite every product with the edited id. */
    method EditProduct() returns (ok: bool)
      modifies this
      ensures ok == (old(editingProduct).Some? && Complete(old(Form())))
      ensures ok ==> products == EditById(old(products), old(editingProduct).value.id, old(Form()))
                     && Form() == EmptyForm && editingProduct == None && !isEditDialogOpen
      ensures !ok ==> products == old(products) && Form() == old(Form())
                      && editingProduct == old(editingProduct) && isEditDialogOpen == old(isEditDialogOpen)
      ensures isAddDialogOpen == old(isAddDialogOpen)
    {
      if editingProduct.None? || !Complete(Form()) {
        return false;
      }
      var edited := EditById(products, editingProduct.value.id, Form());
      ResetForm();
      products := edited;
      isEditDialogOpen := false;
      ok := true;
    }

    method DeleteProduct(id: int)
      modifies this`products
      ensures products == WithoutId(old(products), id)
    {
      products := WithoutId(products, id);
    }

    /** Open the edit dialog with the form filled in from `p`. */
    method StartEdit(p: Product)
      modifies this`editingProduct, this`name, this`category, this`price, this`image,
               this`description, this`isEditDialogOpen
      ensures editingProduct == Some(p) && Form() == FormOf(p) && isEditDialogOpen
    {
      editingProduct := Some(p);
      name, category, price, image, description :=
        p.name, p.category, ToString(p.price), p.image, p.description;
      isEditDialogOpen := true;
    }

    /** The dashboard's three statistics cards. */
    method Stats() returns (total: nat, cases: nat, glasses: nat)
      ensures total == |products|
      ensures cases == |OfCategory(products, IphoneCases)|
      ensures glasses == |OfCategory(products, Sunglasses)|
      ensures cases + glasses <= total
    {
      total := |products|;
      cases := |OfCategory(products, IphoneCases)|;
      glasses := |OfCategory(products, Sunglasses)|;
      CategoriesFit(products);
    }
  }

  /** Opening a product and saving the dialog unchanged leaves the catalog as it was. */
  method EditRoundTrip(panel: AdminPanel, p: Product) returns (ok: bool)
    requires Complete(FormOf(p))
    requires forall q :: q in panel.products && q.id == p.id ==> q == p
    modifies panel
    ensures ok && panel.products == old(panel.products)
  {
    panel.StartEdit(p);
    ok := panel.EditProduct();
    EditUnchangedCatalog(old(panel.products), p);
  }
}
