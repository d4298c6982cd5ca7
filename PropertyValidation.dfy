/**
 * The listing schema (src/validation/property.validation.ts) as the outcome
 * of its parse for a submitted record: either the parse throws, because a
 * photo is null or undefined and the size refinement reads a property of
 * it, or it returns the issues, field by field in the schema's order. The
 * plain acceptance predicate the schema amounts to sits beside them.
 */
module PropertyValidation {
  import opened Common

  /** A JavaScript value as the schema sees it. */
  datatype JsValue =
    | Undefined
    | Null
    | Str(s: string)
    | Num(n: real)
    | Bool(b: bool)
    | FileVal(file: File)
    | Arr(items: seq<JsValue>)

  /** The kind of a reported issue; `Message` carries the schema's own text. */
  datatype IssueKind = Required | InvalidType | InvalidEnum | NotInteger | Message(text: string)

  datatype Issue = Issue(path: string, kind: IssueKind)

  /** How `safeParse` ends: with an exception thrown out of it, or with the issues it found. */
  datatype ParseOutcome = Threw | Parsed(issues: seq<Issue>)

  /** A submitted record: a missing key reads as undefined. */
  type Record = map<string, JsValue>

  function Field(r: Record, key: string): JsValue
  {
    if key in r then r[key] else Undefined
  }

  const ListingKinds: seq<string> := ["RENT", "SALE"]
  const PropertyTypes: seq<string> :=
    ["APARTMENT", "HOUSE", "LAND", "OFFICE", "COMMERCIAL", "GARAGE", "PARKING", "STORAGE"]
  const MaxFileSize := 5 * 1024 * 1024
  const AcceptedImageTypes: seq<string> := ["image/jpeg", "image/jpg", "image/png", "image/webp"]
  const AmenityKeys: seq<string> :=
    ["garden", "balcony", "terrace", "pool", "airConditioning", "heating", "furnished", "elevator", "parking"]

  predicate Absent(v: JsValue)
  {
    v.Undefined? || v.Null?
  }

  predicate IsInteger(x: real)
  {
    x.Floor as real == x
  }

  // ---------------------------------------------------------------------
  // The issues of each field schema
  // ---------------------------------------------------------------------

  /** `z.string().min(1, msg).nullable().optional()`; `msg` None is a string with no minimum. */
  function TextIssues(path: string, v: JsValue, minMessage: Option<string>): seq<Issue>
  {
    if Absent(v) then []
    else if !v.Str? then [Issue(path, InvalidType)]
    else if minMessage.Some? && |v.s| < 1 then [Issue(path, Message(minMessage.value))]
    else []
  }

  /**
   * `z.number()[.int()].min(0, msg).nullable().optional()`: a wrong type stops
   * the checks; otherwise the integer check and the minimum both report.
   */
  function NumberIssues(path: string, v: JsValue, integer: bool, minMessage: string): seq<Issue>
  {
    if Absent(v) then []
    else if !v.Num? then [Issue(path, InvalidType)]
    else
      (if integer && !IsInteger(v.n) then [Issue(path, NotInteger)] else [])
      + (if v.n < 0.0 then [Issue(path, Message(minMessage))] else [])
  }

  /** `z.enum(options).optional().nullable()` */
  function EnumIssues(path: string, v: JsValue, options: seq<string>): seq<Issue>
  {
    if Absent(v) then []
    else if !v.Str? then [Issue(path, InvalidType)]
    else if v.s !in options then [Issue(path, InvalidEnum)]
    else []
  }

  /** `z.boolean().nullable().optional()` */
  function FlagIssues(path: string, v: JsValue): seq<Issue>
  {
    if Absent(v) || v.Bool? then [] else [Issue(path, InvalidType)]
  }

  /**
   * The three refinements of one photo; every one of them runs. On null or
   * undefined the size refinement throws instead, so those are left to
   * `Issues`. Any other non-file value has no `size` or `type`, and both
   * later refinements fail on it.
   */
  function FileIssues(path: string, v: JsValue): seq<Issue>
    requires !Absent(v)
  {
    (if v.FileVal? then [] else [Issue(path, Message("Must be a File"))])
    + (if v.FileVal? && v.file.size <= MaxFileSize then [] else [Issue(path, Message("File size must be less than 5MB"))])
    + (if v.FileVal? && v.file.mimeType in AcceptedImageTypes then []
       else [Issue(path, Message("Only .jpg, .jpeg, .png and .webp formats are supported"))])
  }

  /** The photo list holds an element on which the size refinement throws. */
  predicate PhotoListThrows(v: JsValue)
  {
    v.Arr? && exists i :: 0 <= i < |v.items| && Absent(v.items[i])
  }

  function ElementIssues(items: seq<JsValue>, from: nat): seq<Issue>
    requires forall i :: 0 <= i < |items| ==> !Absent(items[i])
    decreases |items|
  {
    if items == [] then []
    else FileIssues("images." + NatToString(from), items[0]) + ElementIssues(items[1..], from + 1)
  }

  /** `z.array(file).min(1, ...).max(5, ...)`: the length checks report first, then each element. */
  function ImagesIssues(v: JsValue): seq<Issue>
    requires !PhotoListThrows(v)
  {
    if v.Undefined? then [Issue("images", Required)]
    else if !v.Arr? then [Issue("images", InvalidType)]
    else
      (if |v.items| < 1 then [Issue("images", Message("At least one image is required"))] else [])
      + (if |v.items| > 5 then [Issue("images", Message("Maximum 5 images are allowed"))] else [])
      + ElementIssues(v.items, 0)
  }

  function AmenityIssues(r: Record, keys: seq<string>): seq<Issue>
  {
    if keys == [] then [] else FlagIssues(keys[0], Field(r, keys[0])) + AmenityIssues(r, keys[1..])
  }

  /** The issues of a parse that does not throw, in the schema's key order. */
  function FieldIssues(r: Record): seq<Issue>
    requires !PhotoListThrows(Field(r, "images"))
  {
    TextIssues("name", Field(r, "name"), Some("Name is required"))
    + TextIssues("description", Field(r, "description"), Some("Description is required"))
    + NumberIssues("price", Field(r, "price"), false, "Price must be 0 or higher")
    + EnumIssues("for", Field(r, "for"), ListingKinds)
    + EnumIssues("type", Field(r, "type"), PropertyTypes)
    + NumberIssues("area", Field(r, "area"), false, "Area must be 0 or higher")
    + NumberIssues("rooms", Field(r, "rooms"), true, "Rooms must be 0 or higher")
    + NumberIssues("bathrooms", Field(r, "bathrooms"), true, "Bathrooms must be 0 or higher")
    + NumberIssues("garage", Field(r, "garage"), true, "Garage must be 0 or higher")
    + AmenityIssues(r, AmenityKeys)
    + TextIssues("location", Field(r, "location"), None)
    + ImagesIssues(Field(r, "images"))
  }

  /**
   * `propertyValidation.safeParse(r)`: it throws exactly when a photo is
   * null or undefined, whatever the other fields hold; otherwise it returns
   * the issues of every field.
   */
  function Issues(r: Record): (o: ParseOutcome)
    ensures o.Threw? <==> PhotoListThrows(Field(r, "images"))
    ensures o.Parsed? ==> o.issues == FieldIssues(r)
  {
    if PhotoListThrows(Field(r, "images")) then Threw else Parsed(FieldIssues(r))
  }

  // ---------------------------------------------------------------------
  // The acceptance predicate
  // ---------------------------------------------------------------------

  predicate OptionalText(v: JsValue, nonEmpty: bool)
  {
    Absent(v) || (v.Str? && (nonEmpty ==> |v.s| >= 1))
  }

  predicate OptionalNumber(v: JsValue, integer: bool)
  {
    Absent(v) || (v.Num? && v.n >= 0.0 && (integer ==> IsInteger(v.n)))
  }

  predicate OptionalChoice(v: JsValue, options: seq<string>)
  {
    Absent(v) || (v.Str? && v.s in options)
  }

  predicate OptionalFlag(v: JsValue)
  {
    Absent(v) || v.Bool?
  }

  /** A photo the schema accepts: a file of at most 5 MiB in one of the four image formats. */
  predicate AcceptedPhoto(v: JsValue)
  {
    v.FileVal? && v.file.size <= MaxFileSize && v.file.mimeType in AcceptedImageTypes
  }

  /** Between one and five photos, each accepted. */
  predicate AcceptedPhotos(v: JsValue)
  {
    v.Arr? && 1 <= |v.items| <= 5 && forall i :: 0 <= i < |v.items| ==> AcceptedPhoto(v.items[i])
  }

  /** What the schema demands of a listing, field by field. */
  predicate ValidListing(r: Record)
  {
    && OptionalText(Field(r, "name"), true)
    && OptionalText(Field(r, "description"), true)
    && OptionalNumber(Field(r, "price"), false)
    && OptionalChoice(Field(r, "for"), ListingKinds)
    && OptionalChoice(Field(r, "type"), PropertyTypes)
    && OptionalNumber(Field(r, "area"), false)
    && OptionalNumber(Field(r, "rooms"), true)
    && OptionalNumber(Field(r, "bathrooms"), true)
    && OptionalNumber(Field(r, "garage"), true)
    && (forall k :: 0 <= k < |AmenityKeys| ==> OptionalFlag(Field(r, AmenityKeys[k])))
    && OptionalText(Field(r, "location"), false)
    && AcceptedPhotos(Field(r, "images"))
  }

  // ---------------------------------------------------------------------
  // Properties
  // ---------------------------------------------------------------------

  lemma {:induction false} ElementIssuesEmpty(items: seq<JsValue>, from: nat)
    requires forall i :: 0 <= i < |items| ==> !Absent(items[i])
    ensures ElementIssues(items, from) == [] <==> forall i :: 0 <= i < |items| ==> AcceptedPhoto(items[i])
    decreases |items|
  {
    if items != [] {
      ElementIssuesEmpty(items[1..], from + 1);
      assert forall i :: 1 <= i < |items| ==> items[i] == items[1..][i - 1];
    }
  }

  /** The photo list reports nothing exactly when it holds one to five accepted photos. */
  lemma ImagesIssuesEmpty(v: JsValue)
    requires !PhotoListThrows(v)
    ensures ImagesIssues(v) == [] <==> AcceptedPhotos(v)
  {
    if v.Arr? {
      ElementIssuesEmpty(v.items, 0);
    }
  }

  lemma {:induction false} AmenityIssuesEmpty(r: Record, keys: seq<string>)
    ensures AmenityIssues(r, keys) == [] <==> forall k :: 0 <= k < |keys| ==> OptionalFlag(Field(r, keys[k]))
    decreases |keys|
  {
    if keys != [] {
      AmenityIssuesEmpty(r, keys[1..]);
      assert forall k :: 1 <= k < |keys| ==> keys[k] == keys[1..][k - 1];
    }
  }

  lemma NumberIssuesEmpty(path: string, v: JsValue, integer: bool, minMessage: string)
    ensures NumberIssues(path, v, integer, minMessage) == [] <==> OptionalNumber(v, integer)
  {
  }

  lemma TextIssuesEmpty(path: string, v: JsValue, minMessage: Option<string>)
    ensures TextIssues(path, v, minMessage) == [] <==> OptionalText(v, minMessage.Some?)
  {
  }

  lemma EnumIssuesEmpty(path: string, v: JsValue, options: seq<string>)
    ensures EnumIssues(path, v, options) == [] <==> OptionalChoice(v, options)
  {
  }

  /** The parse returns without an issue exactly when the record meets the field-by-field demands. */
  lemma IssuesEmptyIffValid(r: Record)
    ensures Issues(r) == Parsed([]) <==> ValidListing(r)
  {
    if PhotoListThrows(Field(r, "images")) {
      var i :| 0 <= i < |Field(r, "images").items| && Absent(Field(r, "images").items[i]);
      assert !AcceptedPhoto(Field(r, "images").items[i]);
      return;
    }
    TextIssuesEmpty("name", Field(r, "name"), Some("Name is required"));
    TextIssuesEmpty("description", Field(r, "description"), Some("Description is required"));
    NumberIssuesEmpty("price", Field(r, "price"), false, "Price must be 0 or higher");
    EnumIssuesEmpty("for", Field(r, "for"), ListingKinds);
    EnumIssuesEmpty("type", Field(r, "type"), PropertyTypes);
    NumberIssuesEmpty("area", Field(r, "area"), false, "Area must be 0 or higher");
    NumberIssuesEmpty("rooms", Field(r, "rooms"), true, "Rooms must be 0 or higher");
    NumberIssuesEmpty("bathrooms", Field(r, "bathrooms"), true, "Bathrooms must be 0 or higher");
    NumberIssuesEmpty("garage", Field(r, "garage"), true, "Garage must be 0 or higher");
    AmenityIssuesEmpty(r, AmenityKeys);
    TextIssuesEmpty("location", Field(r, "location"), None);
    ImagesIssuesEmpty(Field(r, "images"));
  }

  /** Every field but the photos may be null or missing: a record holding only accepted photos validates. */
  lemma OnlyPhotosRequired(r: Record)
    requires forall key :: key in r && key != "images" ==> r[key].Null?
    requires AcceptedPhotos(Field(r, "images"))
    ensures Issues(r) == Parsed([])
  {
    assert ValidListing(r) by {
      forall k | 0 <= k < |AmenityKeys| ensures Absent(Field(r, AmenityKeys[k])) {
        AbsentBesidePhotos(r, AmenityKeys[k]);
      }
      AbsentBesidePhotos(r, "name");
      AbsentBesidePhotos(r, "description");
      AbsentBesidePhotos(r, "price");
      AbsentBesidePhotos(r, "for");
      AbsentBesidePhotos(r, "type");
      AbsentBesidePhotos(r, "area");
      AbsentBesidePhotos(r, "rooms");
      AbsentBesidePhotos(r, "bathrooms");
      AbsentBesidePhotos(r, "garage");
      AbsentBesidePhotos(r, "location");
    }
    IssuesEmptyIffValid(r);
  }

  lemma AbsentBesidePhotos(r: Record, key: string)
    requires forall key :: key in r && key != "images" ==> r[key].Null?
    requires key != "images"
    ensures Absent(Field(r, key))
  {
  }

  /** Without photos a listing is always refused, whatever else it holds. */
  lemma PhotosRequired(r: Record)
    requires !(Field(r, "images").Arr? && |Field(r, "images").items| >= 1)
    ensures Issues(r) != Parsed([])
  {
    IssuesEmptyIffValid(r);
  }

  /** A sixth photo is refused with the schema's own message, even when every photo is acceptable; a null among them throws instead. */
  lemma SixPhotosRefused(r: Record)
    requires Field(r, "images").Arr? && |Field(r, "images").items| == 6
    requires forall i :: 0 <= i < 6 ==> !Absent(Field(r, "images").items[i])
    ensures Issues(r).Parsed?
    ensures Issue("images", Message("Maximum 5 images are allowed")) in Issues(r).issues
  {
    var images := Field(r, "images");
    assert Issue("images", Message("Maximum 5 images are allowed")) in ImagesIssues(images);
  }

  /** A null photo makes the parse throw, even beside accepted photos and whatever the other fields hold. */
  lemma NullPhotoThrows(r: Record, k: nat)
    requires Field(r, "images").Arr? && k < |Field(r, "images").items|
    requires Field(r, "images").items[k] == Null
    ensures Issues(r) == Threw
  {
    assert Absent(Field(r, "images").items[k]);
  }

  /** Rooms, bathrooms and garage must be whole numbers; price and area need not be. */
  lemma FractionalCounts(r: Record)
    requires Field(r, "rooms") == Num(1.5)
    ensures Issues(r) != Parsed([])
    ensures Issues(r).Parsed? ==> Issue("rooms", NotInteger) in Issues(r).issues
  {
    assert Issue("rooms", NotInteger) in NumberIssues("rooms", Field(r, "rooms"), true, "Rooms must be 0 or higher");
  }
}
