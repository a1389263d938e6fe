/**
 * The pet form on the client: the checks it runs before submitting and the
 * way editing a field clears that field's error. The form submits its data
 * as the body of the create request, so the form's data is a `PetRequest`.
 */
module PetForm {
  import opened Base
  import opened Text
  import opened Pets

  datatype Field = NameField | SpeciesField | BreedField | BirthDateField | GenderField
                 | ColorField | MicrochipField | WeightField | NotesField | OwnerField

  /** The longest microchip the form accepts. */
  const MaxMicrochipLength := 50

  /** The message shown under a failing field. */
  function Message(f: Field): string {
    match f
    case NameField => "Nombre es requerido"
    case SpeciesField => "Especie es requerida"
    case OwnerField => "Propietario es requerido"
    case WeightField => "Peso debe estar entre 0.01 y 999.99 kg"
    case BirthDateField => "Fecha de nacimiento no puede ser futura"
    case MicrochipField => "Microchip no puede exceder 50 caracteres"
    case _ => ""
  }

  /**
   * The fields that fail their rule: a blank name, no species, no owner, a
   * given weight outside (0, 999.99] kg, a birth date after `today`, a
   * microchip longer than 50 characters. Each rule reads only its own field.
   */
  function Violations(form: PetRequest, today: int): (r: set<Field>)
    ensures NameField in r <==> AllSpace(form.name)
    ensures SpeciesField in r <==> form.species == ""
    ensures OwnerField in r <==> form.ownerId == 0
    ensures WeightField in r <==> form.currentWeight.Some? && (form.currentWeight.value <= 0 || form.currentWeight.value > MaxWeight)
    ensures BirthDateField in r <==> form.birthDate.Some? && form.birthDate.value > today
    ensures MicrochipField in r <==> |form.microchip| > MaxMicrochipLength
    ensures r <= {NameField, SpeciesField, OwnerField, WeightField, BirthDateField, MicrochipField}
  {
    var badWeight := form.currentWeight.Some? && (form.currentWeight.value <= 0 || form.currentWeight.value > MaxWeight);
    var future := form.birthDate.Some? && form.birthDate.value > today;
    Flag(AllSpace(form.name), NameField) + Flag(form.species == "", SpeciesField) + Flag(form.ownerId == 0, OwnerField)
    + Flag(badWeight, WeightField) + Flag(future, BirthDateField) + Flag(|form.microchip| > MaxMicrochipLength, MicrochipField)
  }

  /** `{f}` when `failed`, otherwise nothing. */
  function Flag(failed: bool, f: Field): (r: set<Field>)
    ensures r <= {f}
    ensures f in r <==> failed
  {
    if failed then {f} else {}
  }

  /**
   * `validateForm`: every rule is checked, not just the first that fails,
   * and each failing field gets its own message; the form is valid exactly
   * when no message was recorded. A name made only of whitespace counts as
   * missing (`!name.trim()`).
   */
  function ValidateForm(form: PetRequest, today: int): (r: (bool, map<Field, string>))
    ensures r.1.Keys == Violations(form, today)
    ensures forall f :: f in r.1 ==> r.1[f] == Message(f)
    ensures r.0 <==> |r.1| == 0
    ensures r.0 <==> Violations(form, today) == {}
  {
    var errors := map f | f in Violations(form, today) :: Message(f);
    assert |errors| == |errors.Keys|;
    (|errors| == 0, errors)
  }

  /**
   * A form that validates passes the create handler's required-field,
   * weight and birth-date guards: the server can then refuse it only for an
   * unknown owner or a microchip already in use.
   */
  lemma ValidFormPassesFieldGuards(form: PetRequest, owners: set<int>, pets: seq<Pet>, today: int)
    requires Violations(form, today) == {}
    ensures CheckPet(form, owners, pets, today) in {None, Some(OwnerNotFound), Some(MicrochipTaken)}
  {
    assert NameField !in Violations(form, today);
    assert form.name != "";
  }

  /** One edit of the form: a text field, the weight, the birth date, or the owner as typed. */
  datatype Change =
    | TextChange(field: Field, text: string)
    | WeightChange(weight: Option<int>)
    | BirthDateChange(day: Option<int>)
    | OwnerChange(typed: string)

  /** The field an edit touches. */
  function FieldOf(c: Change): Field {
    match c
    case TextChange(f, _) => f
    case WeightChange(_) => WeightField
    case BirthDateChange(_) => BirthDateField
    case OwnerChange(_) => OwnerField
  }

  /** Whether a field holds text. */
  predicate IsTextField(f: Field) {
    f in {NameField, SpeciesField, BreedField, GenderField, ColorField, MicrochipField, NotesField}
  }

  /** `parseInt(value) || 0`: an owner id that does not parse, or parses to 0, is 0. */
  function OwnerIdOf(typed: string): (id: int)
    ensures ParseInt(typed).None? ==> id == 0
    ensures ParseInt(typed).Some? ==> id == ParseInt(typed).value
  {
    var n := ParseInt(typed);
    if n.None? then 0 else n.value
  }

  /** The form after an edit: the edited field takes the new value, every other field is kept. */
  function Edited(form: PetRequest, c: Change): (r: PetRequest)
    requires c.TextChange? ==> IsTextField(c.field)
    ensures FieldOf(c) != NameField ==> r.name == form.name
    ensures FieldOf(c) != SpeciesField ==> r.species == form.species
    ensures FieldOf(c) != OwnerField ==> r.ownerId == form.ownerId
    ensures FieldOf(c) != WeightField ==> r.currentWeight == form.currentWeight
    ensures FieldOf(c) != BirthDateField ==> r.birthDate == form.birthDate
    ensures FieldOf(c) != MicrochipField ==> r.microchip == form.microchip
    ensures FieldOf(c) != BreedField ==> r.breed == form.breed
    ensures FieldOf(c) != GenderField ==> r.gender == form.gender
    ensures FieldOf(c) != ColorField ==> r.color == form.color
    ensures FieldOf(c) != NotesField ==> r.notes == form.notes
    ensures c.TextChange? && c.field == NameField ==> r.name == c.text
    ensures c.TextChange? && c.field == SpeciesField ==> r.species == c.text
    ensures c.TextChange? && c.field == BreedField ==> r.breed == c.text
    ensures c.TextChange? && c.field == GenderField ==> r.gender == c.text
    ensures c.TextChange? && c.field == ColorField ==> r.color == c.text
    ensures c.TextChange? && c.field == MicrochipField ==> r.microchip == c.text
    ensures c.TextChange? && c.field == NotesField ==> r.notes == c.text
    ensures c.WeightChange? ==> r.currentWeight == c.weight
    ensures c.BirthDateChange? ==> r.birthDate == c.day
    ensures c.OwnerChange? ==> r.ownerId == OwnerIdOf(c.typed)
  {
    match c
    case TextChange(f, text) =>
      (match f
       case NameField => form.(name := text)
       case SpeciesField => form.(species := text)
       case BreedField => form.(breed := text)
       case GenderField => form.(gender := text)
       case ColorField => form.(color := text)
       case MicrochipField => form.(microchip := text)
       case _ => form.(notes := text))
    case WeightChange(w) => form.(currentWeight := w)
    case BirthDateChange(d) => form.(birthDate := d)
    case OwnerChange(typed) => form.(ownerId := OwnerIdOf(typed))
  }

  /** `handleChange`'s error update: drop the edited field's message and keep every other one. */
  function ClearedErrors(errors: map<Field, string>, f: Field): (r: map<Field, string>)
    ensures r.Keys == errors.Keys - {f}
    ensures forall g :: g in r ==> r[g] == errors[g]
  {
    errors - {f}
  }

  /**
   * An edit can change only the verdict on the field it touches: every other
   * field fails after the edit exactly when it failed before.
   */
  lemma EditKeepsOtherVerdicts(form: PetRequest, c: Change, today: int)
    requires c.TextChange? ==> IsTextField(c.field)
    ensures forall g :: g != FieldOf(c) ==>
      (g in Violations(Edited(form, c), today) <==> g in Violations(form, today))
  {
  }

  /**
   * After validating and then editing a field, the messages still shown are
   * those of other fields, and every one of them is still deserved.
   */
  lemma ClearedErrorsStillDeserved(form: PetRequest, c: Change, today: int, errors: map<Field, string>)
    requires c.TextChange? ==> IsTextField(c.field)
    requires errors.Keys == Violations(form, today)
    ensures ClearedErrors(errors, FieldOf(c)).Keys <= Violations(Edited(form, c), today)
    ensures FieldOf(c) !in ClearedErrors(errors, FieldOf(c))
  {
    EditKeepsOtherVerdicts(form, c, today);
  }
}
