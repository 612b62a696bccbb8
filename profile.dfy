/**
 * The profile screen's save path: the ordered validation chain, the saved
 * record, and the unit conversions between what is stored (kg, cm) and what
 * is shown or typed in imperial mode (lbs, ft).
 */
module Profile {
  import opened Wrappers
  import opened Text

  /** Pounds per kilogram and feet per centimetre, as the screen converts. */
  const KgToLbs: real := 2.20462
  const CmToFeet: real := 0.0328084

  /** A typed number field and what `parseFloat` reads from it (None for NaN). */
  datatype NumberText = NumberText(text: string, value: Option<real>)

  /** The age field and what `parseInt` reads from it (None for NaN). */
  datatype IntText = IntText(text: string, value: Option<int>)

  /** The form being edited. */
  datatype Draft = Draft(
    name: string,
    email: string,
    weight: NumberText,
    height: NumberText,
    age: IntText,
    gender: string,
    photo: Option<string>)

  /** A saved profile: trimmed name and email, weight in kg, height in cm, age in years. */
  datatype Profile = Profile(
    name: string,
    email: string,
    weight: real,
    height: real,
    age: int,
    gender: string,
    photo: Option<string>)

  /**
   * Why a save is refused. The range errors carry the limits and unit the
   * alert shows: the metric limits converted for display in imperial mode.
   */
  datatype ProfileError =
    | EmptyName
    | NotANumber
    | WeightOutOfRange(low: real, high: real, unit: string)
    | HeightOutOfRange(low: real, high: real, unit: string)
    | AgeOutOfRange

  predicate NameGiven(d: Draft) {
    Trim(d.name) != []
  }

  predicate NumbersRead(d: Draft) {
    d.weight.value.Some? && d.height.value.Some? && d.age.value.Some?
  }

  predicate WeightInRange(d: Draft)
    requires NumbersRead(d)
  {
    20.0 <= d.weight.value.value <= 500.0
  }

  predicate HeightInRange(d: Draft)
    requires NumbersRead(d)
  {
    100.0 <= d.height.value.value <= 250.0
  }

  predicate AgeInRange(d: Draft)
    requires NumbersRead(d)
  {
    1 <= d.age.value.value <= 120
  }

  /**
   * The checks of `saveProfile`, in their order: a blank name, then any field
   * that is not a number, then weight in [20, 500] kg, height in [100, 250] cm
   * and age in [1, 120]. The limits are metric in either unit mode.
   */
  function ValidateProfile(d: Draft, useMiles: bool): (r: Result<Profile, ProfileError>)
    ensures r == Err(EmptyName) <==> !NameGiven(d)
    ensures r == Err(NotANumber) <==> NameGiven(d) && !NumbersRead(d)
    ensures r.Err? && r.error.WeightOutOfRange? <==>
              NameGiven(d) && NumbersRead(d) && !WeightInRange(d)
    ensures r.Err? && r.error.HeightOutOfRange? <==>
              NameGiven(d) && NumbersRead(d) && WeightInRange(d) && !HeightInRange(d)
    ensures r == Err(AgeOutOfRange) <==>
              NameGiven(d) && NumbersRead(d) && WeightInRange(d) && HeightInRange(d) && !AgeInRange(d)
    ensures r.Ok? <==>
              NameGiven(d) && NumbersRead(d) && WeightInRange(d) && HeightInRange(d) && AgeInRange(d)
    ensures r.Ok? ==> r.value.name == Trim(d.name) && r.value.email == Trim(d.email)
                      && Some(r.value.weight) == d.weight.value && Some(r.value.height) == d.height.value
                      && Some(r.value.age) == d.age.value
                      && r.value.gender == d.gender && r.value.photo == d.photo
    ensures r.Err? && r.error.WeightOutOfRange? ==> r.error.unit == (if useMiles then "lbs" else "kg")
    ensures r.Err? && r.error.HeightOutOfRange? ==> r.error.unit == (if useMiles then "ft" else "cm")
  {
    if !NameGiven(d) then Err(EmptyName)
    else if !NumbersRead(d) then Err(NotANumber)
    else if !WeightInRange(d) then
      Err(if useMiles then WeightOutOfRange(20.0 * KgToLbs, 500.0 * KgToLbs, "lbs")
          else WeightOutOfRange(20.0, 500.0, "kg"))
    else if !HeightInRange(d) then
      Err(if useMiles then HeightOutOfRange(100.0 * CmToFeet, 250.0 * CmToFeet, "ft")
          else HeightOutOfRange(100.0, 250.0, "cm"))
    else if !AgeInRange(d) then Err(AgeOutOfRange)
    else Ok(Profile(Trim(d.name), Trim(d.email), d.weight.value.value, d.height.value.value,
                    d.age.value.value, d.gender, d.photo))
  }

  /** Whether a save succeeds, and what it saves, does not depend on the unit mode. */
  lemma ValidationIgnoresUnits(d: Draft)
    ensures ValidateProfile(d, true).Ok? == ValidateProfile(d, false).Ok?
    ensures ValidateProfile(d, true).Ok? ==> ValidateProfile(d, true).value == ValidateProfile(d, false).value
  {
  }

  /** The form of a saved profile, whatever text each number is written as. */
  function AsDraft(p: Profile, weightText: string, heightText: string, ageText: string): Draft {
    Draft(p.name, p.email, NumberText(weightText, Some(p.weight)), NumberText(heightText, Some(p.height)),
          IntText(ageText, Some(p.age)), p.gender, p.photo)
  }

  /** Saving a saved profile again, unedited and in either unit mode, saves the same profile. */
  lemma ResaveUnchanged(d: Draft, useMiles: bool, again: bool, wt: string, ht: string, at: string)
    requires ValidateProfile(d, useMiles).Ok?
    ensures ValidateProfile(AsDraft(ValidateProfile(d, useMiles).value, wt, ht, at), again)
         == ValidateProfile(d, useMiles)
  {
    TrimIdempotent(d.name);
    TrimIdempotent(d.email);
  }

  /** What a weight or height cell shows: '--', the text as typed, or a number for `toFixed(digits)`. */
  datatype Shown = Dash | Raw(text: string) | Fixed(value: real, digits: nat)

  /** `getDisplayWeight`: kilograms shown as pounds in imperial mode. */
  function DisplayWeight(weight: NumberText, useMiles: bool): (s: Shown)
    ensures weight.text == "" ==> s == Dash
    ensures weight.text != "" && (weight.value.None? || !useMiles) ==> s == Raw(weight.text)
    ensures weight.text != "" && weight.value.Some? && useMiles ==> s == Fixed(weight.value.value * KgToLbs, 1)
  {
    if weight.text == "" then Dash
    else if weight.value.None? then Raw(weight.text)
    else if useMiles then Fixed(weight.value.value * KgToLbs, 1)
    else Raw(weight.text)
  }

  /** `getDisplayHeight`: centimetres shown as feet in imperial mode. */
  function DisplayHeight(height: NumberText, useMiles: bool): (s: Shown)
    ensures height.text == "" ==> s == Dash
    ensures height.text != "" && (height.value.None? || !useMiles) ==> s == Raw(height.text)
    ensures height.text != "" && height.value.Some? && useMiles ==> s == Fixed(height.value.value * CmToFeet, 1)
  {
    if height.text == "" then Dash
    else if height.value.None? then Raw(height.text)
    else if useMiles then Fixed(height.value.value * CmToFeet, 1)
    else Raw(height.text)
  }

  datatype FieldName = WeightField | HeightField | OtherField

  /**
   * `convertInputToMetric`: typed pounds back to kilograms and typed feet
   * back to centimetres in imperial mode; anything else, and anything that
   * is not a number, passes through as typed.
   */
  function ConvertInputToMetric(field: FieldName, input: NumberText, useMiles: bool): (s: Shown)
    ensures input.value.None? || !useMiles || field == OtherField ==> s == Raw(input.text)
    ensures input.value.Some? && useMiles && field == WeightField ==> s == Fixed(input.value.value / KgToLbs, 1)
    ensures input.value.Some? && useMiles && field == HeightField ==> s == Fixed(input.value.value / CmToFeet, 0)
  {
    if input.value.None? then Raw(input.text)
    else if field == WeightField && useMiles then Fixed(input.value.value / KgToLbs, 1)
    else if field == HeightField && useMiles then Fixed(input.value.value / CmToFeet, 0)
    else Raw(input.text)
  }

  /**
   * The input conversion undoes the display conversion: the number shown for
   * a stored value, typed back in, converts to the stored value (before
   * `toFixed` rounds either), and in metric mode both pass text unchanged.
   */
  lemma DisplayThenInput(stored: NumberText, typed: string)
    requires stored.text != "" && stored.value.Some?
    ensures ConvertInputToMetric(WeightField, NumberText(typed, Some(DisplayWeight(stored, true).value)), true)
         == Fixed(stored.value.value, 1)
    ensures ConvertInputToMetric(HeightField, NumberText(typed, Some(DisplayHeight(stored, true).value)), true)
         == Fixed(stored.value.value, 0)
    ensures DisplayWeight(stored, false) == Raw(stored.text)
    ensures ConvertInputToMetric(WeightField, stored, false) == Raw(stored.text)
  {
  }

  /**
   * The screen's profile state. `user` is None until the first save (the
   * initial record holds only empty strings).
   */
  class ProfileEditor {
    var user: Option<Profile>
    var isEditing: bool

    constructor()
      ensures user.None? && !isEditing
    {
      user := None;
      isEditing := false;
    }

    /** `saveProfile`: each failed check leaves the state alone; a pass saves and leaves edit mode. */
    method SaveProfile(d: Draft, useMiles: bool) returns (outcome: Result<Profile, ProfileError>)
      modifies this
      ensures outcome == ValidateProfile(d, useMiles)
      ensures outcome.Ok? ==> user == Some(outcome.value) && !isEditing
      ensures outcome.Err? ==> user == old(user) && isEditing == old(isEditing)
    {
      if Trim(d.name) == [] {
        return Err(EmptyName);
      }
      if d.weight.value.None? || d.height.value.None? || d.age.value.None? {
        return Err(NotANumber);
      }
      var weight, height, age := d.weight.value.value, d.height.value.value, d.age.value.value;
      if weight < 20.0 || weight > 500.0 {
        var unit := if useMiles then "lbs" else "kg";
        var low := if useMiles then 20.0 * KgToLbs else 20.0;
        var high := if useMiles then 500.0 * KgToLbs else 500.0;
        return Err(WeightOutOfRange(low, high, unit));
      }
      if height < 100.0 || height > 250.0 {
        var unit := if useMiles then "ft" else "cm";
        var low := if useMiles then 100.0 * CmToFeet else 100.0;
        var high := if useMiles then 250.0 * CmToFeet else 250.0;
        return Err(HeightOutOfRange(low, high, unit));
      }
      if age < 1 || age > 120 {
        return Err(AgeOutOfRange);
      }
      var saved := Profile(Trim(d.name), Trim(d.email), weight, height, age, d.gender, d.photo);
      user := Some(saved);
      isEditing := false;
      return Ok(saved);
    }
  }
}
