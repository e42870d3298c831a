/** The product editor of client/src/components/ProductFormModal.tsx: the
    form record, its list edits (image fields and colour choice), the reset
    when the dialog opens, and the submit that adds or updates the product. */
module ProductForm {
  import opened Wrappers
  import opened Schema
  import Seqs
  import Data
  import Storage

  /** The form record is the product without id and timestamps. */
  type FormData = Data.ProductData

  /** The empty form: one empty image field, no colours, active. */
  const EmptyForm: FormData := Data.ProductData("", "", 0.0, "", [""], [], true)

  /** The reset effect: the product's fields when editing, else the empty form. */
  function ResetFor(product: Option<Product>): FormData {
    if product.Some? then
      var p := product.value;
      Data.ProductData(p.name, p.description, p.basePrice, p.categoryId, p.images, p.colors, p.isActive)
    else EmptyForm
  }

  // ----- Colour choice -----

  /** `handleColorToggle`: drop the id when chosen, append it otherwise. */
  function ToggledColors(colors: seq<string>, colorId: string): seq<string> {
    if colorId in colors then Seqs.Filter(colors, (id: string) => id != colorId) else colors + [colorId]
  }

  /** Toggling flips whether the id is chosen and no other id's; toggling
      twice restores every id's membership, and restores the list itself when
      the id was not chosen. */
  lemma ToggleMeaning(colors: seq<string>, colorId: string, other: string)
    requires other != colorId
    ensures (colorId in ToggledColors(colors, colorId)) <==> colorId !in colors
    ensures (other in ToggledColors(colors, colorId)) <==> other in colors
    ensures (colorId in ToggledColors(ToggledColors(colors, colorId), colorId)) <==> colorId in colors
    ensures (other in ToggledColors(ToggledColors(colors, colorId), colorId)) <==> other in colors
    ensures colorId !in colors ==> ToggledColors(ToggledColors(colors, colorId), colorId) == colors
  {
    var keep := (id: string) => id != colorId;
    var once := ToggledColors(colors, colorId);
    if colorId in colors {
      var k :| 0 <= k < |colors| && colors[k] == colorId;
      if other in colors {
        var j :| 0 <= j < |colors| && colors[j] == other;
        assert keep(colors[j]);
      }
    } else {
      assert once == colors + [colorId];
      Seqs.FilterAppend(colors, [colorId], keep);
      forall i | 0 <= i < |colors| ensures keep(colors[i]) {
        assert colors[i] in colors;
      }
      Seqs.FilterKeepsAll(colors, keep);
      assert Seqs.Filter([colorId], keep) == [];
    }
  }

  // ----- Image fields -----

  /** `images.filter((_, i) => i !== index)` */
  function WithoutIndex(images: seq<string>, index: int): seq<string>
    decreases |images|
  {
    if images == [] then []
    else (if index == 0 then [] else [images[0]]) + WithoutIndex(images[1..], index - 1)
  }

  /** Removing an image field drops exactly the entry at the index and keeps
      the others in order. */
  lemma {:induction false} WithoutIndexMeaning(images: seq<string>, index: int)
    requires 0 <= index < |images|
    ensures WithoutIndex(images, index) == images[..index] + images[index + 1..]
    decreases |images|
  {
    if index == 0 {
      WithoutIndexOutside(images[1..], -1);
    } else {
      var tail := images[1..];
      WithoutIndexMeaning(tail, index - 1);
      calc {
        WithoutIndex(images, index);
        [images[0]] + WithoutIndex(tail, index - 1);
        [images[0]] + (tail[..index - 1] + tail[index..]);
        { assert images[..index] == [images[0]] + tail[..index - 1];
          assert images[index + 1..] == tail[index..]; }
        images[..index] + images[index + 1..];
      }
    }
  }

  /** An index outside the list removes nothing. */
  lemma {:induction false} WithoutIndexOutside(images: seq<string>, index: int)
    requires !(0 <= index < |images|)
    ensures WithoutIndex(images, index) == images
    decreases |images|
  {
    if images != [] {
      WithoutIndexOutside(images[1..], index - 1);
      assert images == [images[0]] + images[1..];
    }
  }

  /** Editing one image field changes only that field; adding one appends an
      empty field; removing an added field undoes the addition. */
  lemma {:induction false} ImageFieldEdits(images: seq<string>, index: int, value: string)
    requires 0 <= index < |images|
    ensures |images[index := value]| == |images| && images[index := value][index] == value
    ensures forall i :: 0 <= i < |images| && i != index ==> images[index := value][i] == images[i]
    ensures WithoutIndex(images + [""], |images|) == images
  {
    WithoutIndexMeaning(images + [""], |images|);
    assert (images + [""])[..|images|] == images;
  }

  // ----- The form -----

  class Form {
    var formData: FormData

    constructor ()
      ensures formData == EmptyForm
    {
      formData := EmptyForm;
    }

    /** The effect run when the dialog opens or its product changes. */
    method Reset(product: Option<Product>)
      modifies this
      ensures formData == ResetFor(product)
      ensures product.None? ==> formData.images == [""] && formData.colors == [] && formData.isActive
    {
      formData := ResetFor(product);
    }

    /** `handleImageChange`; the index is one of the fields shown. */
    method ChangeImage(index: int, value: string)
      requires 0 <= index < |formData.images|
      modifies this
      ensures formData == old(formData).(images := old(formData.images)[index := value])
    {
      formData := formData.(images := formData.images[index := value]);
    }

    /** `addImageField` */
    method AddImageField()
      modifies this
      ensures formData == old(formData).(images := old(formData.images) + [""])
    {
      formData := formData.(images := formData.images + [""]);
    }

    /** `removeImageField` */
    method RemoveImageField(index: int)
      modifies this
      ensures formData == old(formData).(images := WithoutIndex(old(formData.images), index))
    {
      formData := formData.(images := WithoutIndex(formData.images, index));
    }

    /** `handleColorToggle` */
    method ToggleColor(colorId: string)
      modifies this
      ensures formData == old(formData).(colors := ToggledColors(old(formData.colors), colorId))
    {
      formData := formData.(colors := ToggledColors(formData.colors, colorId));
    }

    /** `handleSubmit`: updates the product being edited with every form
        field, or adds a new product. */
    method Submit(product: Option<Product>, data: Data.DataProvider, stamp: string, now: string, fails: bool)
      modifies data, data.stores
      ensures product.Some? ==>
                data.products == Data.UpdateProducts(old(data.products), product.value.id, PatchOf(formData), now)
      ensures product.None? ==>
                data.products == old(data.products) + [Data.NewProduct(formData, stamp, now)]
      ensures data.Collections() == old(data.Collections()).(products := data.products)
      ensures data.stores.State() ==
                Storage.Persisted(old(data.stores.State()), Storage.ProductsPath, Storage.ProductsKey, Storage.ProductsDoc(data.products), fails)
      ensures data.isLoading == old(data.isLoading) && data.error == old(data.error)
    {
      if product.Some? {
        data.UpdateProduct(product.value.id, PatchOf(formData), now, fails);
      } else {
        data.AddProduct(formData, stamp, now, fails);
      }
    }
  }

  /** The form as a partial product: every form field, no id or creation time. */
  function PatchOf(f: FormData): Data.ProductPatch {
    Data.ProductPatch(None, Some(f.name), Some(f.description), Some(f.basePrice), Some(f.categoryId),
                      Some(f.images), Some(f.colors), Some(f.isActive), None)
  }

  /** Submitting an edit gives the product the form's fields and keeps its id
      and creation time; resetting from a product and submitting unchanged
      only refreshes its update time. */
  lemma SubmitEditMeaning(p: Product, f: FormData, now: string)
    ensures var r := Data.MergeProduct(p, PatchOf(f), now);
            && r.id == p.id && r.createdAt == p.createdAt && r.updatedAt == now
            && Data.ProductData(r.name, r.description, r.basePrice, r.categoryId, r.images, r.colors, r.isActive) == f
    ensures Data.MergeProduct(p, PatchOf(ResetFor(Some(p))), now) == p.(updatedAt := now)
  {
  }
}
