/**
 * Registering a pet: the guards of the create handler, in order, the
 * generated internal id (`P001`, `P002`, …) and the optional initial entry
 * of the weight history.
 */
module Pets {
  import opened Base
  import opened Text

  /**
   * The next internal id after `last`, the id of the most recently created
   * pet: `P001` when there is none; otherwise `P` and the number after the
   * leading `P`, plus one, padded to at least three digits. A suffix that
   * does not parse as a number yields `PNaN`.
   */
  function NextInternalId(last: Option<string>): (r: string)
    ensures |r| >= 4 && r[0] == 'P'
    ensures last.None? ==> r == "P001"
  {
    if last.None? then "P001" else IdAfter(ParseInt(Suffix(last.value)))
  }

  /** The id after a parsed suffix: `PNaN` for `NaN`, otherwise the next number padded. */
  function IdAfter(n: Option<int>): (r: string)
    ensures |r| >= 4 && r[0] == 'P'
  {
    if n.None? then "PNaN" else IdOf(n.value + 1)
  }

  /** After an id whose suffix is not a number comes `PNaN`. */
  lemma NextInternalIdNaN(last: string)
    requires ParseInt(Suffix(last)).None?
    ensures NextInternalId(Some(last)) == "PNaN"
  {
  }

  /** After an id whose suffix parses to `k` comes the id numbered `k + 1`. */
  lemma NextInternalIdParsed(last: string, k: int)
    requires ParseInt(Suffix(last)) == Some(k) && k + 1 >= 0
    ensures NextInternalId(Some(last)) == InternalId(k + 1)
  {
    assert NextInternalId(Some(last)) == IdAfter(Some(k));
    IdAfterNumber(k);
  }

  /** `slice(1)`: the id without its first character. */
  function Suffix(id: string): (r: string)
    ensures id != [] ==> [id[0]] + r == id
    ensures id == [] ==> r == []
  {
    if id == [] then [] else id[1..]
  }

  /** `P` followed by `k` in decimal, padded with zeros to at least three characters. */
  function IdOf(k: int): (r: string)
    ensures |r| >= 4 && r[0] == 'P'
  {
    "P" + PadStart(IntToString(k), 3, '0')
  }

  /** The internal id numbered `n`: `P` and `n` padded to at least three digits. */
  function InternalId(n: nat): (r: string)
    ensures |r| >= 4 && r[0] == 'P' && AllDigits(r[1..]) && DigitsValue(r[1..]) == n
    ensures |r| > 4 ==> r[1] != '0'
  {
    var digits := NatToString(n);
    var padded := PadStart(digits, 3, '0');
    assert IntToString(n) == digits;
    var r := IdOf(n);
    assert r == "P" + padded;
    assert r[1..] == padded;
    LeadingZerosIgnored(|padded| - |digits|, digits);
    NatToStringRoundTrip(n);
    assert |padded| > 3 ==> padded == digits && n != 0;
    r
  }

  /** After a suffix parsed to `k` comes the id numbered `k + 1`. */
  lemma IdAfterNumber(k: int)
    requires k + 1 >= 0
    ensures IdAfter(Some(k)) == InternalId(k + 1)
  {
  }

  /** After the id numbered `n` comes the id numbered `n + 1`: P009 is followed by P010, P999 by P1000. */
  lemma NextAfterInternalId(n: nat)
    ensures NextInternalId(Some(InternalId(n))) == InternalId(n + 1)
  {
    var id := InternalId(n);
    ParseIntOfDigits(id[1..]);
    assert ParseInt(Suffix(id)) == Some(n);
    NextInternalIdParsed(id, n);
  }

  /** The first id is the id numbered 1. */
  lemma FirstInternalId()
    ensures NextInternalId(None) == InternalId(1)
  {
    assert NatToString(1) == "1";
  }

  /** A pet row; optional text fields hold the trimmed text, or `None` when that is empty. */
  datatype Pet = Pet(
    name: string,
    internalId: string,
    species: string,
    breed: Option<string>,
    birthDate: Option<int>,
    gender: string,
    color: Option<string>,
    microchip: Option<string>,
    currentWeight: Option<int>,
    notes: Option<string>,
    ownerId: int)

  /** A row of the weight history, in hundredths of a kilogram. */
  datatype WeightEntry = WeightEntry(petId: int, weight: int, recordedBy: string, notes: string)

  /**
   * The body of a create request. Text fields are empty and `ownerId` is 0
   * when absent; `currentWeight` (hundredths of a kilogram) and `birthDate`
   * (a day number) are `None` when absent.
   */
  datatype PetRequest = PetRequest(
    name: string,
    species: string,
    breed: string,
    birthDate: Option<int>,
    gender: string,
    color: string,
    microchip: string,
    currentWeight: Option<int>,
    notes: string,
    ownerId: int)

  datatype PetError = PetFieldsMissing | OwnerNotFound | MicrochipTaken | WeightOutOfRange | BirthDateInFuture

  /** The heaviest accepted weight, 999.99 kg. */
  const MaxWeight := 99999

  /** Whether some pet already carries microchip `chip`. */
  predicate MicrochipInUse(pets: seq<Pet>, chip: string) {
    exists k :: 0 <= k < |pets| && pets[k].microchip == Some(chip)
  }

  /** The required fields name, owner and species are all present. */
  predicate FieldsPresent(req: PetRequest) {
    req.name != "" && req.ownerId != 0 && req.species != ""
  }

  /** No microchip was given, or no pet carries the trimmed one yet. */
  predicate ChipFree(req: PetRequest, pets: seq<Pet>) {
    req.microchip == "" || !MicrochipInUse(pets, Trim(req.microchip))
  }

  /** No weight was given, or it lies in (0, 999.99] kg. */
  predicate WeightInRange(req: PetRequest) {
    req.currentWeight.None? || 0 < req.currentWeight.value <= MaxWeight
  }

  /** No birth date was given, or it is not after `today`. */
  predicate BornBy(req: PetRequest, today: int) {
    req.birthDate.None? || req.birthDate.value <= today
  }

  /**
   * The guard chain of the create handler, in order: required fields, the
   * owner, a unique microchip, the weight range, a birth date not after today.
   */
  function CheckPet(req: PetRequest, owners: set<int>, pets: seq<Pet>, today: int): (r: Option<PetError>)
    ensures r == Some(PetFieldsMissing) <==> !FieldsPresent(req)
    ensures r.None? <==> FieldsPresent(req) && req.ownerId in owners && ChipFree(req, pets)
                         && WeightInRange(req) && BornBy(req, today)
    ensures FieldsPresent(req) && req.ownerId !in owners ==> r == Some(OwnerNotFound)
    ensures FieldsPresent(req) && req.ownerId in owners && !ChipFree(req, pets) ==> r == Some(MicrochipTaken)
    ensures FieldsPresent(req) && req.ownerId in owners && ChipFree(req, pets) && !WeightInRange(req)
      ==> r == Some(WeightOutOfRange)
    ensures FieldsPresent(req) && req.ownerId in owners && ChipFree(req, pets) && WeightInRange(req) && !BornBy(req, today)
      ==> r == Some(BirthDateInFuture)
  {
    if req.name == "" || req.ownerId == 0 || req.species == "" then Some(PetFieldsMissing)
    else if req.ownerId !in owners then Some(OwnerNotFound)
    else if req.microchip != "" && MicrochipInUse(pets, Trim(req.microchip)) then Some(MicrochipTaken)
    else if req.currentWeight.Some? && (req.currentWeight.value <= 0 || req.currentWeight.value > MaxWeight) then Some(WeightOutOfRange)
    else if req.birthDate.Some? && req.birthDate.value > today then Some(BirthDateInFuture)
    else None
  }

  /** The row the handler stores: trimmed texts, gender `UNKNOWN` when absent. */
  function NewPet(req: PetRequest, internalId: string): (p: Pet)
    ensures p.gender != ""
    ensures req.gender != "" ==> p.gender == req.gender
    ensures req.gender == "" ==> p.gender == "UNKNOWN"
    ensures p.microchip.Some? ==> p.microchip.value == Trim(req.microchip) && p.microchip.value != ""
    ensures p.microchip.None? <==> AllSpace(req.microchip)
    ensures p.breed.None? <==> AllSpace(req.breed)
    ensures p.breed.Some? ==> p.breed.value == Trim(req.breed)
    ensures p.color.None? <==> AllSpace(req.color)
    ensures p.color.Some? ==> p.color.value == Trim(req.color)
    ensures p.notes.None? <==> AllSpace(req.notes)
    ensures p.notes.Some? ==> p.notes.value == Trim(req.notes)
    ensures p.name == Trim(req.name) && p.internalId == internalId && p.ownerId == req.ownerId
    ensures p.species == req.species && p.birthDate == req.birthDate && p.currentWeight == req.currentWeight
  {
    Pet(Trim(req.name), internalId, req.species, TrimmedOrNull(req.breed), req.birthDate,
        if req.gender == "" then "UNKNOWN" else req.gender,
        TrimmedOrNull(req.color), TrimmedOrNull(req.microchip), req.currentWeight, TrimmedOrNull(req.notes), req.ownerId)
  }

  /** Microchips stored are unique. */
  predicate ChipsUnique(pets: seq<Pet>) {
    forall a, b :: 0 <= a < b < |pets| && pets[a].microchip.Some? ==> pets[b].microchip != pets[a].microchip
  }

  /** A pet that passed the microchip guard keeps the stored microchips unique. */
  lemma ChipsStayUnique(pets: seq<Pet>, req: PetRequest, internalId: string)
    requires ChipsUnique(pets)
    requires req.microchip != "" ==> !MicrochipInUse(pets, Trim(req.microchip))
    ensures ChipsUnique(pets + [NewPet(req, internalId)])
  {
    var pet := NewPet(req, internalId);
    var after := pets + [pet];
    forall a, b | 0 <= a < b < |after| && after[a].microchip.Some?
      ensures after[b].microchip != after[a].microchip
    {
      if b == |pets| {
        assert after[a] == pets[a] && after[b] == pet;
      }
    }
  }

  /** The pet and weight-history tables; the pet with id `k` is element `k - 1`. */
  class PetRegistry {
    var pets: seq<Pet>
    var weights: seq<WeightEntry>
    var owners: set<int>

    /** Microchips stored are unique and every weight entry belongs to a pet. */
    ghost predicate Valid()
      reads this
    {
      && ChipsUnique(pets)
      && (forall k :: 0 <= k < |weights| ==> 1 <= weights[k].petId <= |pets|)
    }

    constructor (owners: set<int>)
      ensures Valid() && pets == [] && weights == [] && this.owners == owners
    {
      this.owners := owners;
      pets, weights := [], [];
    }

    /** The internal id the next pet gets, from the most recently created pet. */
    function NextId(): string
      reads this
    {
      NextInternalId(if pets == [] then None else Some(pets[|pets| - 1].internalId))
    }

    /**
     * `POST /pets`: the first failing guard decides the error and nothing is
     * stored; otherwise one pet with the next internal id and, when a weight
     * was given, one weight-history entry for it.
     */
    method CreatePet(req: PetRequest, today: int) returns (r: Result<nat, PetError>)
      requires Valid()
      modifies this
      ensures Valid()
      ensures r.Err? <==> CheckPet(req, owners, old(pets), today).Some?
      ensures r.Err? ==> (r.error == CheckPet(req, owners, old(pets), today).value
        && pets == old(pets) && weights == old(weights))
      ensures r.Ok? ==> r.value == |pets| && pets == old(pets) + [NewPet(req, old(NextId()))]
      ensures r.Ok? && req.currentWeight.None? ==> weights == old(weights)
      ensures r.Ok? && req.currentWeight.Some? ==>
        weights == old(weights) + [WeightEntry(r.value, req.currentWeight.value, "SYSTEM", "Peso inicial")]
      ensures owners == old(owners)
    {
      var check := CheckPet(req, owners, pets, today);
      if check.Some? {
        return Err(check.value);
      }
      var internalId := NextId();
      var id := AddPet(req, internalId);
      if req.currentWeight.Some? {
        AddWeight(WeightEntry(id, req.currentWeight.value, "SYSTEM", "Peso inicial"));
      }
      r := Ok(id);
    }

    /** Stores the pet of a request whose microchip, if any, is not taken. */
    method AddPet(req: PetRequest, internalId: string) returns (id: nat)
      requires Valid()
      requires req.microchip != "" ==> !MicrochipInUse(pets, Trim(req.microchip))
      modifies this
      ensures Valid()
      ensures id == |pets| && pets == old(pets) + [NewPet(req, internalId)]
      ensures weights == old(weights) && owners == old(owners)
    {
      ChipsStayUnique(pets, req, internalId);
      pets := pets + [NewPet(req, internalId)];
      id := |pets|;
    }

    /** Stores a weight-history entry of an existing pet. */
    method AddWeight(entry: WeightEntry)
      requires Valid() && 1 <= entry.petId <= |pets|
      modifies this
      ensures Valid()
      ensures weights == old(weights) + [entry]
      ensures pets == old(pets) && owners == old(owners)
    {
      weights := weights + [entry];
    }
  }
}
