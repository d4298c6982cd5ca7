/**
 * The listing form (src/components/forms/PropertyForm.tsx): its default
 * values, and the two parallel lists it keeps for the photos, the form's
 * `images` field and the `imagePreviews` state, through the add, remove
 * and post-upload reset handlers.
 */
module PropertyForm {
  import opened Common

  /** The most photos a listing may carry. */
  const MaxImages := 5

  /** `initialValues` as the form receives them: every field may be missing. */
  datatype InitialValues = InitialValues(
    name: Option<string>, sellerPhone: Option<string>, description: Option<string>,
    price: Option<real>, listingFor: Option<string>, propertyType: Option<string>,
    area: Option<real>, rooms: Option<real>, bathrooms: Option<real>, garage: Option<real>,
    garden: Option<bool>, balcony: Option<bool>, terrace: Option<bool>, pool: Option<bool>,
    airConditioning: Option<bool>, heating: Option<bool>, furnished: Option<bool>,
    elevator: Option<bool>, parking: Option<bool>,
    location: Option<string>, images: Option<seq<File>>)

  /** The form's values other than the photos. */
  datatype FormValues = FormValues(
    name: Option<string>, sellerPhone: Option<string>, description: Option<string>,
    price: real, listingFor: Option<string>, propertyType: Option<string>,
    area: real, rooms: real, bathrooms: real, garage: real,
    amenities: Amenities, location: string)

  /** `v || 0` on a number: a missing value or zero gives zero. */
  function NumberOrZero(v: Option<real>): (r: real)
    ensures v.Some? && v.value != 0.0 ==> r == v.value
    ensures v.None? || v.value == 0.0 ==> r == 0.0
  {
    if v.Some? && v.value != 0.0 then v.value else 0.0
  }

  /** `v || false` on a flag. */
  function FlagOrFalse(v: Option<bool>): (r: bool)
    ensures r <==> v == Some(true)
  {
    v.Some? && v.value
  }

  /** The form's `defaultValues`, built from `initialValues`. */
  function DefaultValues(init: Option<InitialValues>): FormValues
  {
    var i := if init.Some? then init.value else Blank();
    FormValues(
      i.name, i.sellerPhone, i.description,
      NumberOrZero(i.price), i.listingFor, i.propertyType,
      NumberOrZero(i.area), NumberOrZero(i.rooms), NumberOrZero(i.bathrooms), NumberOrZero(i.garage),
      Amenities(FlagOrFalse(i.garden), FlagOrFalse(i.balcony), FlagOrFalse(i.terrace), FlagOrFalse(i.pool),
                FlagOrFalse(i.airConditioning), FlagOrFalse(i.heating), FlagOrFalse(i.furnished),
                FlagOrFalse(i.elevator), FlagOrFalse(i.parking)),
      OrElse(i.location, ""))
  }

  /** `initialValues` left out altogether reads every field as missing. */
  function Blank(): InitialValues
  {
    InitialValues(None, None, None, None, None, None, None, None, None, None,
                  None, None, None, None, None, None, None, None, None, None, None)
  }

  /** Without initial values the form opens with zero numbers, no amenities and an empty location. */
  lemma DefaultsWithoutInitialValues()
    ensures var d := DefaultValues(None);
      && d.price == 0.0 && d.area == 0.0 && d.rooms == 0.0 && d.bathrooms == 0.0 && d.garage == 0.0
      && d.amenities == Amenities(false, false, false, false, false, false, false, false, false)
      && d.location == "" && d.name.None? && d.listingFor.None? && d.propertyType.None?
  {
  }

  /** Given values that are not falsy are kept as they are; the text fields are passed through. */
  lemma DefaultsKeepTruthyValues(init: InitialValues)
    ensures var d := DefaultValues(Some(init));
      && (init.price.Some? && init.price.value != 0.0 ==> d.price == init.price.value)
      && (init.rooms.Some? && init.rooms.value != 0.0 ==> d.rooms == init.rooms.value)
      && (init.garden == Some(true) ==> d.amenities.garden)
      && (init.location.Some? && init.location.value != "" ==> d.location == init.location.value)
      && d.name == init.name && d.description == init.description && d.sellerPhone == init.sellerPhone
  {
  }

  // ---------------------------------------------------------------------
  // The photo lists
  // ---------------------------------------------------------------------

  /** `copy.splice(index, 1)`: removes the element at `index`; an index past the end removes nothing. */
  function RemoveAt<T>(s: seq<T>, index: nat): (r: seq<T>)
    ensures index < |s| ==> |r| == |s| - 1
    ensures index >= |s| ==> r == s
    ensures forall k :: 0 <= k < index && k < |s| ==> r[k] == s[k]
    ensures forall k :: index <= k < |s| - 1 ==> r[k] == s[k + 1]
  {
    if index < |s| then s[..index] + s[index + 1..] else s
  }

  /** What a file selection did. */
  datatype ImageChange = Ignored | Rejected(message: string) | Added

  /** The photos and their previews; `images` None is the form field still unset. */
  class ImageState {
    var images: Option<seq<File>>
    var previews: seq<string>

    /** `form.getValues("images") || []` */
    function Current(): seq<File>
      reads this
    {
      if images.Some? then images.value else []
    }

    /** The two lists run in parallel. */
    predicate Parallel()
      reads this
    {
      |Current()| == |previews|
    }

    /**
     * Mounting the form: the field starts at the initial images, and the
     * previews are their object URLs (`initialPreviews`, one per image) when
     * there is at least one image.
     */
    constructor (initialImages: Option<seq<File>>, initialPreviews: seq<string>)
      requires initialImages.Some? ==> |initialPreviews| == |initialImages.value|
      ensures images == initialImages
      ensures previews == if initialImages.Some? && |initialImages.value| > 0 then initialPreviews else []
      ensures Parallel()
    {
      images := initialImages;
      if initialImages.Some? && |initialImages.value| > 0 {
        previews := initialPreviews;
      } else {
        previews := [];
      }
    }

    /**
     * handleImageChange: ignores an empty selection, rejects one that would
     * take the photos past five, and otherwise appends the files and their
     * previews (`newPreviews`, one object URL per file) in order.
     */
    method HandleImageChange(files: seq<File>, newPreviews: seq<string>) returns (outcome: ImageChange)
      requires |newPreviews| == |files|
      modifies this
      ensures files == [] ==> outcome == Ignored && images == old(images) && previews == old(previews)
      ensures files != [] && |old(Current())| + |files| > MaxImages ==>
        outcome == Rejected("You can only upload a maximum of 5 images")
        && images == old(images) && previews == old(previews)
      ensures files != [] && |old(Current())| + |files| <= MaxImages ==>
        outcome == Added && images == Some(old(Current()) + files) && previews == old(previews) + newPreviews
      ensures outcome == Added ==> |Current()| <= MaxImages
      ensures old(Parallel()) ==> Parallel()
    {
      if |files| == 0 {
        return Ignored;
      }
      var currentImages := Current();
      if |currentImages| + |files| > MaxImages {
        return Rejected("You can only upload a maximum of 5 images");
      }
      images := Some(currentImages + files);
      previews := previews + newPreviews;
      outcome := Added;
    }

    /** handleRemoveImage: removes the `index`-th photo and the `index`-th preview; `index` is a preview's position. */
    method HandleRemoveImage(index: nat)
      requires index < |previews|
      modifies this
      ensures images == Some(RemoveAt(old(Current()), index))
      ensures previews == RemoveAt(old(previews), index)
      ensures old(Parallel()) ==> Parallel()
    {
      var updatedImages := RemoveAt(Current(), index);
      var currentPreviews := RemoveAt(previews, index);
      images := Some(updatedImages);
      previews := currentPreviews;
    }

    /** The `finally` of handlePhotoUpload: the photos and previews are cleared whether the upload worked or not. */
    method ResetAfterUpload()
      modifies this
      ensures images == Some([]) && previews == [] && Parallel()
    {
      images := Some([]);
      previews := [];
    }
  }

  /** The photos paired with their previews. */
  function Zip<A, B>(xs: seq<A>, ys: seq<B>): (r: seq<(A, B)>)
    requires |xs| == |ys|
    ensures |r| == |xs| && forall k :: 0 <= k < |r| ==> r[k] == (xs[k], ys[k])
  {
    seq(|xs|, k requires 0 <= k < |xs| => (xs[k], ys[k]))
  }

  /** Removing at the same position from two parallel lists keeps each photo with its own preview. */
  lemma RemoveKeepsPairs<A, B>(xs: seq<A>, ys: seq<B>, index: nat)
    requires |xs| == |ys|
    ensures |RemoveAt(xs, index)| == |RemoveAt(ys, index)|
    ensures Zip(RemoveAt(xs, index), RemoveAt(ys, index)) == RemoveAt(Zip(xs, ys), index)
  {
    var l := Zip(RemoveAt(xs, index), RemoveAt(ys, index));
    var r := RemoveAt(Zip(xs, ys), index);
    assert |l| == |r|;
    forall k | 0 <= k < |l| ensures l[k] == r[k] {
      if k >= index {
        assert r[k] == Zip(xs, ys)[k + 1];
      }
    }
  }

  /** Removal drops exactly the chosen element: put back at its place, the list is restored. */
  lemma RemoveAtRestore<T>(s: seq<T>, index: nat)
    requires index < |s|
    ensures RemoveAt(s, index)[..index] + [s[index]] + RemoveAt(s, index)[index..] == s
  {
    var r := RemoveAt(s, index);
    assert r[..index] == s[..index];
    assert r[index..] == s[index + 1..];
  }
}
