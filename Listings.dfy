/**
 * The property server actions (src/actions/property.action.ts): adding a
 * listing for the signed-in user, listing that user's properties and
 * fetching one property by id. The signed-in user is what `dbUser` returns,
 * passed in; the database chooses the new row's id, status and timestamps,
 * which are passed in too.
 */
module Listings {
  import opened Common
  import opened Store

  /** The answer of addProperty. */
  datatype AddResponse = AddResponse(message: string, success: bool, property: Option<Property>)

  /** The row addProperty writes: the payload, owned by and named after the signed-in user. */
  function NewListing(user: User, payload: PropertyData, id: string, status: string, stamps: Stamps): (p: Property)
    ensures p.id == id && p.userId == user.id && p.sellerName == user.name && p.data == payload
  {
    Property(id, user.id, user.name, status, payload, stamps)
  }

  /**
   * The property table after addProperty. `createFails` stands for the
   * database refusing the row (the payload is not validated first).
   */
  function AfterAdd(properties: map<string, Property>, user: Option<User>, payload: PropertyData,
                    id: string, status: string, stamps: Stamps, createFails: bool): map<string, Property>
  {
    if user.None? || createFails then properties
    else properties[id := NewListing(user.value, payload, id, status, stamps)]
  }

  /** The answer addProperty gives. */
  function AddAnswer(user: Option<User>, payload: PropertyData, id: string, status: string,
                     stamps: Stamps, createFails: bool): AddResponse
  {
    if user.None? then AddResponse("Unauthenticated user", false, None)
    else if createFails then AddResponse("Error adding property", false, None)
    else AddResponse("Property added successfully", true, Some(NewListing(user.value, payload, id, status, stamps)))
  }

  /**
   * addProperty: inserts the payload as a row of the signed-in user. It
   * neither validates the payload nor reads or writes any credit.
   */
  method AddProperty(db: Database, user: Option<User>, payload: PropertyData,
                     id: string, status: string, stamps: Stamps, createFails: bool) returns (r: AddResponse)
    requires id !in db.properties
    modifies db
    ensures db.properties == AfterAdd(old(db.properties), user, payload, id, status, stamps, createFails)
    ensures r == AddAnswer(user, payload, id, status, stamps, createFails)
    ensures db.users == old(db.users)
  {
    if user.None? {
      return AddResponse("Unauthenticated user", false, None);
    }
    if createFails {
      return AddResponse("Error adding property", false, None);
    }
    var row := Property(id, user.value.id, user.value.name, status, payload, stamps);
    db.properties := db.properties[id := row];
    r := AddResponse("Property added successfully", true, Some(row));
  }

  /** Successful adds insert exactly one row; every other outcome leaves the table as it was. */
  lemma AddInsertsOneRow(properties: map<string, Property>, user: Option<User>, payload: PropertyData,
                         id: string, status: string, stamps: Stamps, createFails: bool)
    requires id !in properties
    ensures var after := AfterAdd(properties, user, payload, id, status, stamps, createFails);
      && (AddAnswer(user, payload, id, status, stamps, createFails).success <==> after.Keys == properties.Keys + {id})
      && (!AddAnswer(user, payload, id, status, stamps, createFails).success <==> after == properties)
      && (forall k :: k in properties ==> k in after && after[k] == properties[k])
  {
    var after := AfterAdd(properties, user, payload, id, status, stamps, createFails);
    if AddAnswer(user, payload, id, status, stamps, createFails).success {
      assert id in after && id !in properties;
      assert after != properties;
    } else {
      assert after == properties;
      assert id !in after;
    }
  }

  /** The answer of getUserProperties: the rows, or a failure message. */
  datatype ListResponse = Listed(rows: map<string, Property>) | ListFailed(message: string)

  /**
   * getUserProperties: the rows of the signed-in user. The `id` argument is
   * accepted and never used.
   */
  function UserProperties(user: Option<User>, id: Option<string>, properties: map<string, Property>): (r: ListResponse)
    ensures user.None? <==> r == ListFailed("Unauthenticated user")
    ensures user.Some? ==> r.Listed?
    ensures user.Some? ==> forall k :: k in r.rows <==> k in properties && properties[k].userId == user.value.id
    ensures user.Some? ==> forall k :: k in r.rows ==> r.rows[k] == properties[k]
  {
    if user.None? then ListFailed("Unauthenticated user")
    else Listed(map k | k in properties && properties[k].userId == user.value.id :: properties[k])
  }

  /** Passing a different id changes nothing: the rows are chosen by the signed-in user alone. */
  lemma UserPropertiesIgnoresId(user: Option<User>, a: Option<string>, b: Option<string>, properties: map<string, Property>)
    ensures UserProperties(user, a, properties) == UserProperties(user, b, properties)
  {
  }

  /** A listing the user has just added is among the user's properties. */
  lemma AddedListingIsListed(properties: map<string, Property>, user: User, payload: PropertyData,
                             id: string, status: string, stamps: Stamps)
    ensures var after := AfterAdd(properties, Some(user), payload, id, status, stamps, false);
      var r := UserProperties(Some(user), None, after);
      id in r.rows && r.rows[id] == NewListing(user, payload, id, status, stamps)
  {
  }

  /**
   * getPropertyById: an empty id is refused before any lookup, an unknown id
   * gives "Property not found", and any row found is returned whatever its status.
   */
  function PropertyById(id: string, properties: map<string, Property>): (r: Result<Property>)
    ensures id == "" ==> r == Err("Property ID is required")
    ensures id != "" && id !in properties ==> r == Err("Property not found")
    ensures id != "" && id in properties ==> r == Ok(properties[id])
  {
    if id == "" then Err("Property ID is required")
    else if id !in properties then Err("Property not found")
    else Ok(properties[id])
  }

  /** Rows of every status are served, so a row that is not active can still be fetched by id. */
  lemma NoStatusFilter(properties: map<string, Property>, id: string, status: string)
    requires id != "" && id in properties && properties[id].status == status
    ensures PropertyById(id, properties).Ok? && PropertyById(id, properties).value.status == status
  {
  }

  /** A listing that was added can be fetched back by its id, unchanged. */
  lemma AddedListingFetchable(properties: map<string, Property>, user: User, payload: PropertyData,
                              id: string, status: string, stamps: Stamps)
    requires id != ""
    ensures var after := AfterAdd(properties, Some(user), payload, id, status, stamps, false);
      PropertyById(id, after) == Ok(NewListing(user, payload, id, status, stamps))
  {
  }
}
