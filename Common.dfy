/**
 * Value types shared by the modules of the model: optional values, the
 * user and property records of the relational schema, and the decimal
 * rendering of integers that JavaScript's `toString()` performs.
 */
module Common {

  datatype Option<+T> = None | Some(value: T)

  /** The outcome of an operation that may fail with a message. */
  datatype Result<+T> = Ok(value: T) | Err(message: string)

  /** JavaScript's `x || fallback` on an optional string: the empty string is falsy. */
  function OrElse(v: Option<string>, fallback: string): (r: string)
    ensures v.Some? && v.value != "" ==> r == v.value
    ensures (v.None? || v.value == "") ==> r == fallback
  {
    if v.Some? && v.value != "" then v.value else fallback
  }

  /** The nine boolean amenity columns of a property. */
  datatype Amenities = Amenities(
    garden: bool, balcony: bool, terrace: bool, pool: bool, airConditioning: bool,
    heating: bool, furnished: bool, elevator: bool, parking: bool)

  /**
   * The user-supplied columns of a property listing, as the listing form
   * hands them to the server (every field may be missing; numbers are the
   * form's JavaScript numbers).
   */
  datatype PropertyData = PropertyData(
    name: Option<string>,
    description: Option<string>,
    price: Option<real>,
    listingFor: Option<string>,
    propertyType: Option<string>,
    area: Option<real>,
    rooms: Option<real>,
    bathrooms: Option<real>,
    garage: Option<real>,
    amenities: Amenities,
    location: Option<string>,
    sellerPhone: Option<string>,
    images: seq<string>)

  /** A browser File as far as the app looks at it: its name, size in bytes and MIME type. */
  datatype File = File(name: string, size: int, mimeType: string)

  /** Timestamps the database keeps on a property row. */
  datatype Stamps = Stamps(createdAt: string, updatedAt: string, expiresAt: Option<string>)

  /** A row of the property table. */
  datatype Property = Property(
    id: string, userId: string, sellerName: string, status: string,
    data: PropertyData, stamps: Stamps)

  /** A row of the user table; `password` holds the stored hash. */
  datatype User = User(
    id: string, email: string, name: string, lastName: string, phone: string,
    password: string, credit: int, role: string)

  function DigitChar(d: nat): (c: char)
    requires d < 10
    ensures '0' <= c <= '9' && c as int - '0' as int == d
  {
    ['0', '1', '2', '3', '4', '5', '6', '7', '8', '9'][d]
  }

  /** Decimal digits of a natural number, without leading zeros. */
  function NatToString(n: nat): (s: string)
    ensures |s| >= 1
    ensures forall i :: 0 <= i < |s| ==> '0' <= s[i] <= '9'
    ensures |s| > 1 ==> s[0] != '0'
    decreases n
  {
    if n < 10 then [DigitChar(n)] else NatToString(n / 10) + [DigitChar(n % 10)]
  }

  /** `Number.prototype.toString()` on an integer-valued number. */
  function IntToString(n: int): (s: string)
    ensures s != ""
    ensures n >= 0 ==> s == NatToString(n)
    ensures n < 0 ==> s == "-" + NatToString(-n)
  {
    if n >= 0 then NatToString(n) else "-" + NatToString(-n)
  }

  /** Reads the decimal digits back; the inverse of NatToString. */
  function DigitsValue(s: string): (n: nat)
    requires forall i :: 0 <= i < |s| ==> '0' <= s[i] <= '9'
  {
    if s == [] then 0 else 10 * DigitsValue(s[..|s| - 1]) + (s[|s| - 1] as int - '0' as int)
  }

  lemma {:induction false} NatToStringRoundTrip(n: nat)
    ensures DigitsValue(NatToString(n)) == n
    decreases n
  {
    if n >= 10 {
      NatToStringRoundTrip(n / 10);
      var s := NatToString(n);
      assert s[..|s| - 1] == NatToString(n / 10);
    }
  }

  /** Different numbers render differently, so a page number survives the round trip through the URL. */
  lemma NatToStringInjective(m: nat, n: nat)
    requires NatToString(m) == NatToString(n)
    ensures m == n
  {
    NatToStringRoundTrip(m);
    NatToStringRoundTrip(n);
  }
}
