/**
 * The product dialog (`ProductDetailModal`): the product being edited, the
 * per-field validation errors, and saving only a valid product.
 */
module ProductForm {
  import opened Wrappers
  import opened Text

  /** `Product`. */
  datatype Product = Product(id: int, name: string, code: string, quantity: int, color: string)

  /** The fields that can carry a validation error. */
  datatype Field = Name | Code | Quantity

  const NameRequired := "Ürün adı gereklidir"
  const CodeRequired := "Ürün kodu gereklidir"
  const QuantityInvalid := "Geçerli bir miktar girin"

  /** A new product; `id` stands for `Date.now()` and `color` for the random colour. */
  function NewProduct(id: int, color: string): (p: Product)
    ensures p.name == "" && p.code == "" && p.quantity == 1
  {
    Product(id, "", "", 1, color)
  }

  /** The error map `validateForm` builds for a product. */
  function Errors(p: Product): map<Field, string> {
    var e1: map<Field, string> := if Trim(p.name) == "" then map[Name := NameRequired] else map[];
    var e2 := if Trim(p.code) == "" then e1[Code := CodeRequired] else e1;
    if p.quantity <= 0 then e2[Quantity := QuantityInvalid] else e2
  }

  /**
   * A name error exactly when the name is blank, a code error exactly when
   * the code is blank, a quantity error exactly when the quantity is not
   * positive, and no other key.
   */
  lemma ErrorsRule(p: Product)
    ensures Name in Errors(p) <==> IsBlank(p.name)
    ensures Code in Errors(p) <==> IsBlank(p.code)
    ensures Quantity in Errors(p) <==> p.quantity <= 0
    ensures Errors(p) == map[] <==> !IsBlank(p.name) && !IsBlank(p.code) && p.quantity > 0
  {
    TrimEmptyIffBlank(p.name);
    TrimEmptyIffBlank(p.code);
    if Errors(p) == map[] {
      assert Name !in Errors(p) && Code !in Errors(p) && Quantity !in Errors(p);
    }
  }

  /** A new product fails on its name and its code but not on its quantity. */
  lemma NewProductErrors(id: int, color: string)
    ensures Errors(NewProduct(id, color)).Keys == {Name, Code}
  {
    ErrorsRule(NewProduct(id, color));
  }

  /** The quantity the number field gives: `parseInt(input) || 0`. */
  function QuantityInput(input: string): int {
    match ParseLeadingInt(input)
    case None => 0
    case Some(n) => n
  }

  /** Text that is not a number reads as quantity 0, which fails validation. */
  lemma NonNumericQuantityFails(p: Product, input: string)
    requires |input| > 0 && !IsJsSpace(input[0]) && !IsDigit(input[0]) && input[0] != '-' && input[0] != '+'
    ensures QuantityInput(input) == 0
    ensures Quantity in Errors(p.(quantity := QuantityInput(input)))
  {
    ParseLeadingIntRule(0, input);
  }

  /** The dialog: the edited product, the errors shown, and the products handed to `onSave`. */
  class ProductDialog {
    var edited: Product
    var errors: map<Field, string>
    var shown: bool
    var savedProducts: seq<Product>

    /** Opening the dialog on an existing product, or on a new one when there is none. */
    constructor (product: Option<Product>, id: int, color: string)
      ensures edited == (if product.Some? then product.value else NewProduct(id, color))
      ensures errors == map[] && shown && savedProducts == []
    {
      edited := if product.Some? then product.value else NewProduct(id, color);
      errors := map[];
      shown := true;
      savedProducts := [];
    }

    /** `validateForm`: record the errors and report whether there are none. */
    method ValidateForm() returns (valid: bool)
      modifies this
      ensures errors == Errors(edited)
      ensures valid <==> !IsBlank(edited.name) && !IsBlank(edited.code) && edited.quantity > 0
      ensures edited == old(edited) && shown == old(shown) && savedProducts == old(savedProducts)
    {
      var newErrors: map<Field, string> := map[];
      if Trim(edited.name) == "" {
        newErrors := newErrors[Name := NameRequired];
      }
      if Trim(edited.code) == "" {
        newErrors := newErrors[Code := CodeRequired];
      }
      if edited.quantity <= 0 {
        newErrors := newErrors[Quantity := QuantityInvalid];
      }
      errors := newErrors;
      valid := |newErrors| == 0;
      ErrorsRule(edited);
      assert valid <==> newErrors == map[];
    }

    /** `handleSave`: a valid product goes to `onSave` and the dialog closes; otherwise only the errors change. */
    method HandleSave()
      modifies this
      ensures errors == Errors(edited) && edited == old(edited)
      ensures Errors(edited) == map[] ==> savedProducts == old(savedProducts) + [edited] && !shown
      ensures Errors(edited) != map[] ==> savedProducts == old(savedProducts) && shown == old(shown)
    {
      var valid := ValidateForm();
      ErrorsRule(edited);
      if valid {
        savedProducts := savedProducts + [edited];
        shown := false;
      }
    }

    /** The name field. */
    method SetName(name: string)
      modifies this
      ensures edited == old(edited).(name := name)
      ensures errors == old(errors) && shown == old(shown) && savedProducts == old(savedProducts)
    {
      edited := edited.(name := name);
    }

    /** The code field. */
    method SetCode(code: string)
      modifies this
      ensures edited == old(edited).(code := code)
      ensures errors == old(errors) && shown == old(shown) && savedProducts == old(savedProducts)
    {
      edited := edited.(code := code);
    }

    /** The quantity field. */
    method SetQuantity(input: string)
      modifies this
      ensures edited == old(edited).(quantity := QuantityInput(input))
      ensures errors == old(errors) && shown == old(shown) && savedProducts == old(savedProducts)
    {
      edited := edited.(quantity := QuantityInput(input));
    }

    /** `handleColorChange`. */
    method SetColor(color: string)
      modifies this
      ensures edited == old(edited).(color := color)
      ensures errors == old(errors) && shown == old(shown) && savedProducts == old(savedProducts)
    {
      edited := edited.(color := color);
    }
  }
}
