/**
 * The two other statements of the data-access layer that bind parameters to a
 * fixed query text: the reservations of one guest (getAllReservations) and the
 * insertion of a property (addProperty).
 */
module FixedQueries {
  import opened Sql

  /** getAllReservations' limit when the caller passes none. */
  const DefaultReservationsLimit: Value := Number(10.0)

  /**
   * The reservations of one guest, joined with their properties: the guest id
   * at $1 and the limit at $2. A JavaScript default parameter takes effect
   * only when the argument is undefined.
   */
  function GetAllReservations(guestId: Value, limit: Value): (s: Statement)
    ensures WellNumbered(s.text, s.params)
    ensures |s.params| == 2 && s.params[0] == guestId
    ensures s.params[1] == if limit == Undefined then DefaultReservationsLimit else limit
  {
    var text := [Placeholder(GuestIdEq, 1), Placeholder(ReservationsLimit, 2)];
    PlaceholdersOfRun(text, 1);
    Statement(text, [guestId, if limit == Undefined then DefaultReservationsLimit else limit])
  }

  /** A JavaScript object's property: undefined when it is missing. */
  function Field(record: map<string, Value>, name: string): Value {
    if name in record then record[name] else Undefined
  }

  /** The VALUES list of the insert: $1, $2, ..., $14, separated by commas. */
  function InsertPlaceholders(): (cs: seq<Token>)
    ensures |cs| == |PropertyColumns|
    ensures forall i :: 0 <= i < |cs| ==> cs[i] == Placeholder(InsertValue, i + 1)
  {
    NumberedFrom(seq(|PropertyColumns|, _ => InsertValue), 1)
  }

  /** The bind parameters of addProperty: the property's fields, listed one by one. */
  function PropertyValues(property: map<string, Value>): seq<Value> {
    [Field(property, "owner_id"), Field(property, "title"), Field(property, "description"),
     Field(property, "thumbnail_photo_url"), Field(property, "cover_photo_url"),
     Field(property, "cost_per_night"), Field(property, "parking_spaces"),
     Field(property, "number_of_bathrooms"), Field(property, "number_of_bedrooms"),
     Field(property, "country"), Field(property, "street"), Field(property, "city"),
     Field(property, "province"), Field(property, "post_code")]
  }

  /** The value list and the column list agree: the k-th value is the field the k-th column names. */
  lemma ValuesFollowColumns(property: map<string, Value>)
    ensures |PropertyValues(property)| == |PropertyColumns|
    ensures forall i :: 0 <= i < |PropertyColumns| ==> PropertyValues(property)[i] == Field(property, PropertyColumns[i])
  {
    var values := PropertyValues(property);
    forall i | 0 <= i < |PropertyColumns|
      ensures values[i] == Field(property, PropertyColumns[i])
    {
      // one case per column, so that each comparison is between two known names
      if i == 0 {
      } else if i == 1 {
      } else if i == 2 {
      } else if i == 3 {
      } else if i == 4 {
      } else if i == 5 {
      } else if i == 6 {
      } else if i == 7 {
      } else if i == 8 {
      } else if i == 9 {
      } else if i == 10 {
      } else if i == 11 {
      } else if i == 12 {
      } else {
        assert i == 13;
      }
    }
  }

  /**
   * addProperty: one value per column of the column list, read from the
   * property object's field of that name, in the column list's order.
   */
  function AddProperty(property: map<string, Value>): (s: Statement)
    ensures WellNumbered(s.text, s.params)
    ensures |s.params| == |PropertyColumns|
    ensures forall i :: 0 <= i < |PropertyColumns| ==> s.params[i] == Field(property, PropertyColumns[i])
  {
    var text := [Lit(InsertProperty)] + Join(InsertPlaceholders(), Lit(Comma)) + [Lit(CloseParen)];
    InsertNumbered();
    ValuesFollowColumns(property);
    Statement(text, PropertyValues(property))
  }

  /** The insert's text numbers its placeholders $1 .. $14 in order. */
  lemma InsertNumbered()
    ensures Placeholders([Lit(InsertProperty)] + Join(InsertPlaceholders(), Lit(Comma)) + [Lit(CloseParen)])
      == Range(1, |PropertyColumns|)
  {
    var cs := InsertPlaceholders();
    PlaceholdersOfRun(cs, 1);
    PlaceholdersOfJoin(cs, Lit(Comma));
    PlaceholdersAppend([Lit(InsertProperty)], Join(cs, Lit(Comma)));
    PlaceholdersAppend([Lit(InsertProperty)] + Join(cs, Lit(Comma)), [Lit(CloseParen)]);
  }

  /**
   * The k-th placeholder of the VALUES list is $k and binds the field named
   * by the k-th column of the column list.
   */
  lemma InsertValuesAligned(property: map<string, Value>)
    ensures var s := AddProperty(property);
      forall k :: 0 <= k < |PropertyColumns| ==>
        s.text[2 * k + 1] == Placeholder(InsertValue, k + 1) && s.params[k] == Field(property, PropertyColumns[k])
  {
    var cs := InsertPlaceholders();
    JoinShape(cs, Lit(Comma));
    var s := AddProperty(property);
    assert s.text == [Lit(InsertProperty)] + Join(cs, Lit(Comma)) + [Lit(CloseParen)];
    forall k | 0 <= k < |PropertyColumns|
      ensures s.text[2 * k + 1] == Placeholder(InsertValue, k + 1)
    {
      assert s.text[2 * k + 1] == Join(cs, Lit(Comma))[2 * k];
    }
  }

  /** Leaving out the limit asks for ten reservations; passing one binds it unchanged. */
  lemma ReservationsLimitDefault(guestId: Value, limit: Value)
    ensures GetAllReservations(guestId, Undefined).params == [guestId, Number(10.0)]
    ensures limit != Undefined ==> GetAllReservations(guestId, limit).params == [guestId, limit]
  {
  }
}
