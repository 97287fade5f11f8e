/** `RegistrationForm`: the fields it binds, the three field cleaners and the checks
    Django's model form adds around them (required, `max_length`, uniqueness). */
module Forms {
  import opened Wrappers
  import opened Text
  import opened Regex
  import opened Schema
  import opened Plates
  import opened Names

  const PlateMessage := "Provided car plate does not match any approved models. Please refer to README file"
  const OwnerMessage := "Owner must be at least two alpha-numeric words"
  const CarModelMessage := "Car model must be at least two alpha-numeric words"

  /** `Meta.fields`: the only keys of the submitted data the form reads. */
  const FormFields: seq<string> := ["plate", "owner", "car_model"]

  /** `clean_plate`: the plate is returned as given when it matches the plate pattern. */
  function CleanPlate(plate: string): (r: Result<string, string>)
    ensures r.Success? <==> Matches(PlatePattern(), plate)
    ensures r.Success? ==> r.value == plate
    ensures r.Failure? ==> r.error == PlateMessage
  {
    PlatePatternIsShape(plate);
    if IsPlate(plate) then Success(plate) else Failure(PlateMessage)
  }

  /** `clean_owner`: the owner is returned as given when it has at least two words. */
  function CleanOwner(owner: string): (r: Result<string, string>)
    ensures r.Success? <==> Matches(TwoWordPattern(), owner)
    ensures r.Success? ==> r.value == owner
    ensures r.Failure? ==> r.error == OwnerMessage
  {
    TwoWordPatternIsShape(owner);
    if IsTwoWords(owner) then Success(owner) else Failure(OwnerMessage)
  }

  /** `clean_car_model`: the model is returned as given when it has at least two words. */
  function CleanCarModel(carModel: string): (r: Result<string, string>)
    ensures r.Success? <==> Matches(TwoWordPattern(), carModel)
    ensures r.Success? ==> r.value == carModel
    ensures r.Failure? ==> r.error == CarModelMessage
  {
    TwoWordPatternIsShape(carModel);
    if IsTwoWords(carModel) then Success(carModel) else Failure(CarModelMessage)
  }

  datatype FormError = Required | TooLong(limit: nat) | Invalid(message: string) | Duplicate

  /** A missing key binds as the empty value. */
  function Value(data: map<string, string>, name: string): string
  {
    if name in data then data[name] else ""
  }

  /** The table's case-insensitive uniqueness, as seen by the form's unique check. */
  predicate PlateTaken(stored: seq<string>, plate: string)
  {
    exists i :: 0 <= i < |stored| && SamePlate(stored[i], plate)
  }

  /** The first error of a text field: required, then `max_length`, then its cleaner. */
  function FieldError(value: string, limit: nat, cleaned: Result<string, string>): Option<FormError>
  {
    if value == "" then Some(Required)
    else if |value| > limit then Some(TooLong(limit))
    else if cleaned.Failure? then Some(Invalid(cleaned.error))
    else None
  }

  /** Which check a text field fails, for a cleaner that accepts exactly the pattern's texts. */
  lemma FieldErrorCases(value: string, limit: nat, cleaned: Result<string, string>, pattern: Regex, message: string)
    requires cleaned.Success? <==> Matches(pattern, value)
    requires cleaned.Failure? ==> cleaned.error == message
    ensures FieldError(value, limit, cleaned).None? <==> 0 < |value| <= limit && Matches(pattern, value)
    ensures value == "" ==> FieldError(value, limit, cleaned) == Some(Required)
    ensures FieldError(value, limit, cleaned) == Some(Invalid(message)) <==>
            0 < |value| <= limit && !Matches(pattern, value)
  {
  }

  /** The plate's error; the unique check runs only on a plate that is otherwise clean. */
  function PlateError(stored: seq<string>, plate: string): Option<FormError>
  {
    var e := FieldError(plate, PlateMaxLength, CleanPlate(plate));
    if e.Some? then e else if PlateTaken(stored, plate) then Some(Duplicate) else None
  }

  /** What the form accepts, stated on the migration's field definitions. */
  ghost predicate Acceptable(stored: seq<string>, plate: string, owner: string, carModel: string)
  {
    FieldsValid(Registration(plate, owner, carModel, DefaultImage, DefaultRetrieveImage))
    && !PlateTaken(stored, plate)
  }

  /** The errors of the three bound values, keyed by field, given the plates already stored. */
  function FieldErrors(stored: seq<string>, plate: string, owner: string, carModel: string): (errs: map<string, FormError>)
    ensures errs.Keys <= set f | f in FormFields
    ensures errs == map[] <==> Acceptable(stored, plate, owner, carModel)
    // each cleaner's error is filed under its own field
    ensures "plate" in errs <==>
            !(0 < |plate| <= PlateMaxLength && Matches(PlatePattern(), plate) && !PlateTaken(stored, plate))
    ensures "owner" in errs <==> !(0 < |owner| <= NameMaxLength && Matches(TwoWordPattern(), owner))
    ensures "car_model" in errs <==> !(0 < |carModel| <= NameMaxLength && Matches(TwoWordPattern(), carModel))
    // and says which check failed
    ensures plate == "" ==> errs["plate"] == Required
    ensures owner == "" ==> errs["owner"] == Required
    ensures carModel == "" ==> errs["car_model"] == Required
    ensures "plate" in errs && errs["plate"] == Invalid(PlateMessage) <==>
            0 < |plate| <= PlateMaxLength && !Matches(PlatePattern(), plate)
    ensures "owner" in errs && errs["owner"] == Invalid(OwnerMessage) <==>
            0 < |owner| <= NameMaxLength && !Matches(TwoWordPattern(), owner)
    ensures "car_model" in errs && errs["car_model"] == Invalid(CarModelMessage) <==>
            0 < |carModel| <= NameMaxLength && !Matches(TwoWordPattern(), carModel)
    ensures "plate" in errs && errs["plate"] == Duplicate <==>
            0 < |plate| <= PlateMaxLength && Matches(PlatePattern(), plate) && PlateTaken(stored, plate)
  {
    FieldErrorCases(plate, PlateMaxLength, CleanPlate(plate), PlatePattern(), PlateMessage);
    FieldErrorCases(owner, NameMaxLength, CleanOwner(owner), TwoWordPattern(), OwnerMessage);
    FieldErrorCases(carModel, NameMaxLength, CleanCarModel(carModel), TwoWordPattern(), CarModelMessage);
    var pe := PlateError(stored, plate);
    var oe := FieldError(owner, NameMaxLength, CleanOwner(owner));
    var ce := FieldError(carModel, NameMaxLength, CleanCarModel(carModel));
    Collect(pe, oe, ce)
  }

  /** `form.errors`: each field that failed, with its first error. */
  function Collect(pe: Option<FormError>, oe: Option<FormError>, ce: Option<FormError>): (errs: map<string, FormError>)
    ensures errs.Keys <= set f | f in FormFields
    ensures "plate" in errs <==> pe.Some?
    ensures "owner" in errs <==> oe.Some?
    ensures "car_model" in errs <==> ce.Some?
    ensures pe.Some? ==> errs["plate"] == pe.value
    ensures oe.Some? ==> errs["owner"] == oe.value
    ensures ce.Some? ==> errs["car_model"] == ce.value
  {
    (if pe.Some? then map["plate" := pe.value] else map[])
      + (if oe.Some? then map["owner" := oe.value] else map[])
      + (if ce.Some? then map["car_model" := ce.value] else map[])
  }

  /** Clean values of acceptable length and a free plate leave no error. */
  lemma NoFieldErrors(stored: seq<string>, plate: string, owner: string, carModel: string)
    requires 0 < |plate| <= PlateMaxLength && IsPlate(plate) && !PlateTaken(stored, plate)
    requires 0 < |owner| <= NameMaxLength && IsTwoWords(owner)
    requires 0 < |carModel| <= NameMaxLength && IsTwoWords(carModel)
    ensures FieldErrors(stored, plate, owner, carModel) == map[]
  {
    PlatePatternIsShape(plate);
    TwoWordPatternIsShape(owner);
    TwoWordPatternIsShape(carModel);
  }

  /** `form.errors` for the submitted data: only the `Meta.fields` keys are bound. */
  function Errors(stored: seq<string>, data: map<string, string>): (errs: map<string, FormError>)
    ensures errs.Keys <= set f | f in FormFields
    ensures errs == map[] <==>
            Acceptable(stored, Value(data, "plate"), Value(data, "owner"), Value(data, "car_model"))
    ensures "plate" in errs <==>
            !(0 < |Value(data, "plate")| <= PlateMaxLength && Matches(PlatePattern(), Value(data, "plate"))
              && !PlateTaken(stored, Value(data, "plate")))
    ensures "owner" in errs <==>
            !(0 < |Value(data, "owner")| <= NameMaxLength && Matches(TwoWordPattern(), Value(data, "owner")))
    ensures "car_model" in errs <==>
            !(0 < |Value(data, "car_model")| <= NameMaxLength && Matches(TwoWordPattern(), Value(data, "car_model")))
  {
    FieldErrors(stored, Value(data, "plate"), Value(data, "owner"), Value(data, "car_model"))
  }

  /** `form.is_valid()` */
  predicate IsValid(stored: seq<string>, data: map<string, string>)
    ensures IsValid(stored, data) <==>
            Acceptable(stored, Value(data, "plate"), Value(data, "owner"), Value(data, "car_model"))
  {
    Errors(stored, data) == map[]
  }

  /** The instance a valid form saves: the three bound fields and the defaults. */
  function Instance(data: map<string, string>): (inst: Registration)
    ensures inst.plate == Value(data, "plate") && inst.owner == Value(data, "owner")
    ensures inst.carModel == Value(data, "car_model")
    ensures inst.image == DefaultImage && inst.retrieveImage == DefaultRetrieveImage
  {
    Registration(Value(data, "plate"), Value(data, "owner"), Value(data, "car_model"), DefaultImage, DefaultRetrieveImage)
  }

  /** Only `plate`, `owner` and `car_model` are read: a client that also sends `image` or
      `retrieve_image` gets the same verdict and the same instance, whose image is blank
      and whose flag is raised. */
  lemma OnlyFormFieldsMatter(stored: seq<string>, data: map<string, string>, other: map<string, string>)
    requires forall f :: f in FormFields ==> Value(data, f) == Value(other, f)
    ensures Errors(stored, data) == Errors(stored, other)
    ensures Instance(data) == Instance(other)
    ensures Instance(data).image == "" && Instance(data).retrieveImage
  {
    assert "plate" in FormFields && "owner" in FormFields && "car_model" in FormFields;
  }

  /** The values from the tests, plate "XY123", are clean next to a stored "ZXY123". */
  lemma ValidFieldsExample()
    ensures FieldErrors(["ZXY123"], "XY123", "John Doe", "DEMO CAR") == map[]
  {
    AcceptedExamples();
    AcceptedNames();
    var stored := ["ZXY123"];
    assert !PlateTaken(stored, "XY123") by { assert |Upper(stored[0])| != |Upper("XY123")|; }
    NoFieldErrors(stored, "XY123", "John Doe", "DEMO CAR");
  }

  /** The form from the tests, bound from its data, is valid. */
  lemma ValidFormExample()
    ensures IsValid(["ZXY123"], map["plate" := "XY123", "owner" := "John Doe", "car_model" := "DEMO CAR"])
  {
    ValidFieldsExample();
    var data := map["plate" := "XY123", "owner" := "John Doe", "car_model" := "DEMO CAR"];
    assert Value(data, "plate") == "XY123";
    assert Value(data, "owner") == "John Doe";
    assert Value(data, "car_model") == "DEMO CAR";
  }

  /** Resubmitting the stored plate, as the test does, is refused as a duplicate. */
  lemma DuplicatePlateExample()
    ensures var errs := FieldErrors(["ZXY123"], "ZXY123", "John Doe", "DEMO CAR");
            "plate" in errs && errs["plate"] == Duplicate
  {
    assert IsPlate("ZXY123") by { assert Shape("ZXY123") == "AAA999"; }
    var stored := ["ZXY123"];
    assert SamePlate(stored[0], "ZXY123");
  }

  /** The unique check ignores case: the stored plate typed in lower case is a duplicate too. */
  lemma DuplicateOtherCaseExample()
    ensures var errs := FieldErrors(["ZXY123"], "zxy123", "John Doe", "DEMO CAR");
            "plate" in errs && errs["plate"] == Duplicate
  {
    assert IsPlate("zxy123") by { assert Shape("zxy123") == "AAA999"; }
    var stored := ["ZXY123"];
    assert SamePlate(stored[0], "zxy123") by {
      assert Upper("zxy123") == "ZXY123";
      assert Upper("ZXY123") == "ZXY123";
    }
  }

  /** "AB" is refused by `clean_plate`. */
  lemma ShortPlateExample()
    ensures var errs := FieldErrors([], "AB", "john doe", "Demo Car");
            "plate" in errs && errs["plate"] == Invalid(PlateMessage)
  {
    assert !IsPlate("AB");
  }

  /** One-word owner and model are refused by `clean_owner` and `clean_car_model`. */
  lemma OneWordExample()
    ensures var errs := FieldErrors([], "ABC234", "JohnDoe", "testmodel");
            "owner" in errs && errs["owner"] == Invalid(OwnerMessage)
            && "car_model" in errs && errs["car_model"] == Invalid(CarModelMessage)
  {
    RefusedNames();
  }
}
