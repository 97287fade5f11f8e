/** The `Registration` table as the initial migration creates it: the field set, the
    validators attached to each field, the length limits and the defaults. */
module Schema {
  import opened Regex

  /** `plate`: `^([a-zA-Z]{2,3}\d{3}|[a-zA-Z]{2}\d{2}|\d{3}[a-zA-Z]{2}|\d{2}[a-zA-Z]{3}|
      \d{1}[a-zA-Z]{4,5}|\d{4}[a-zA-Z]{1,2}|[THP]\d{5}|\d{5,6}|\d{4}H|P\d{4}|E[a-zA-Z]\d{4})$`,
      the eleven alternatives in their order. */
  function PlateAlternatives(): seq<Regex>
  {
    [ Concat(Repeat(Letter, 2, 3), Repeat(Digit, 3, 3)),
      Concat(Repeat(Letter, 2, 2), Repeat(Digit, 2, 2)),
      Concat(Repeat(Digit, 3, 3), Repeat(Letter, 2, 2)),
      Concat(Repeat(Digit, 2, 2), Repeat(Letter, 3, 3)),
      Concat(Repeat(Digit, 1, 1), Repeat(Letter, 4, 5)),
      Concat(Repeat(Digit, 4, 4), Repeat(Letter, 1, 2)),
      Concat(One(OneOf("THP")), Repeat(Digit, 5, 5)),
      Repeat(Digit, 5, 6),
      Concat(Repeat(Digit, 4, 4), One(OneOf("H"))),
      Concat(One(OneOf("P")), Repeat(Digit, 4, 4)),
      Concat(One(OneOf("E")), Concat(One(Letter), Repeat(Digit, 4, 4))) ]
  }

  function PlatePattern(): Regex { AnyOf(PlateAlternatives()) }

  /** `owner` and `car_model`: `^\w+\s+(\w+\s*)+$`. */
  function TwoWordPattern(): Regex
  {
    Concat(Plus(One(Word)), Concat(Plus(One(Space)), Plus(Concat(Plus(One(Word)), Star(One(Space))))))
  }

  const PlateMaxLength: nat := 6
  const NameMaxLength: nat := 200

  /** `image` is blank until the worker fills it; `retrieve_image` starts raised. */
  const DefaultImage: string := ""
  const DefaultRetrieveImage: bool := true

  /** The values of one row apart from the automatic `id` and `created`. */
  datatype Registration = Registration(
    plate: string,
    owner: string,
    carModel: string,
    image: string,
    retrieveImage: bool)

  /** A stored row; the table is ordered by `created`. */
  datatype Row = Row(id: nat, created: nat, reg: Registration)

  /** What the field validators and `max_length` of the migration accept. */
  ghost predicate FieldsValid(r: Registration)
  {
    && 0 < |r.plate| <= PlateMaxLength && Matches(PlatePattern(), r.plate)
    && 0 < |r.owner| <= NameMaxLength && Matches(TwoWordPattern(), r.owner)
    && 0 < |r.carModel| <= NameMaxLength && Matches(TwoWordPattern(), r.carModel)
  }
}
