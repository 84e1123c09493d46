/** A model of the package sorter: a pure decision rule that sends a package,
    given by its width, height and length (centimetres) and its mass
    (kilograms), to one of three handling stacks. Measurements are exact
    reals; the source's validation library is replaced by an explicit check
    that reports every non-positive argument. */
module PackageSorter {

  /** The three handling stacks, a closed enumeration. */
  datatype Stack = STANDARD | SPECIAL | REJECTED

  /** The four arguments of `Sort`, in the order the validation schema lists them. */
  datatype Argument = Width | Height | Length | Mass

  /** The validation failure: the arguments that are not strictly positive. */
  datatype SortError = InvalidInput(offending: seq<Argument>)

  /** Outcome of validation: it passes, or it fails with the error `Sort` throws. */
  datatype Validation = Pass | Fail(error: SortError)

  /** Outcome of `Sort`: a stack, or the validation error in place of a throw. */
  datatype Result<T> = Ok(value: T) | Err(error: SortError)

  const BulkyMaxVolumeCm: real := 1000000.0
  const BulkyMaxDimensionLengthCm: real := 150.0
  const HeavyMaxMassKg: real := 20.0

  /** Side of the cube whose volume is exactly `BulkyMaxVolumeCm`. */
  const CubeSide: real := 100.0

  /** The value passed for argument `a`. */
  function ArgumentValue(a: Argument, width: real, height: real, length: real, mass: real): real
  {
    match a
    case Width => width
    case Height => height
    case Length => length
    case Mass => mass
  }

  /** The rank of a stack: how many of the two limits a package sent there exceeds. */
  function Severity(s: Stack): nat
  {
    match s
    case STANDARD => 0
    case SPECIAL => 1
    case REJECTED => 2
  }

  // ---------------------------------------------------------------------------
  // Validation

  /** Every argument must be strictly positive; each is checked on its own and
      every failing one is reported. */
  function ValidateInput(width: real, height: real, length: real, mass: real): (v: Validation)
    ensures v.Pass? <==> width > 0.0 && height > 0.0 && length > 0.0 && mass > 0.0
    ensures v.Fail? ==> forall a: Argument ::
      a in v.error.offending <==> ArgumentValue(a, width, height, length, mass) <= 0.0
  {
    var offending :=
      (if width <= 0.0 then [Width] else []) +
      (if height <= 0.0 then [Height] else []) +
      (if length <= 0.0 then [Length] else []) +
      (if mass <= 0.0 then [Mass] else []);
    if offending == [] then Pass else Fail(InvalidInput(offending))
  }

  // ---------------------------------------------------------------------------
  // Bulk and weight predicates

  function Volume(width: real, height: real, length: real): (v: real)
    ensures width > 0.0 && height > 0.0 && length > 0.0 ==> v > 0.0
  {
    width * height * length
  }

  /** `Array.prototype.some` over a list of sides with the predicate "at least `limit`". */
  function AnyAtLeast(sides: seq<real>, limit: real): (b: bool)
    ensures b <==> exists i :: 0 <= i < |sides| && sides[i] >= limit
  {
    if sides == [] then false
    else if sides[0] >= limit then true
    else
      var rest := AnyAtLeast(sides[1..], limit);
      assert forall i :: 1 <= i < |sides| ==> sides[i] == sides[1..][i - 1];
      rest
  }

  function ExceedsMaxDimension(width: real, height: real, length: real): (b: bool)
    ensures b <==> width >= BulkyMaxDimensionLengthCm || height >= BulkyMaxDimensionLengthCm
                   || length >= BulkyMaxDimensionLengthCm
  {
    var sides := [width, height, length];
    assert sides[0] == width && sides[1] == height && sides[2] == length;
    AnyAtLeast(sides, BulkyMaxDimensionLengthCm)
  }

  /** The volume limit is the volume of a cube of side `CubeSide` (see
      `ExceedsMaxVolumeCube`). */
  function ExceedsMaxVolume(width: real, height: real, length: real): (b: bool)
    ensures width >= CubeSide && height >= CubeSide && length >= CubeSide ==> b
    ensures 0.0 < width < CubeSide && 0.0 < height < CubeSide && 0.0 < length < CubeSide ==> !b
  {
    ExceedsMaxVolumeCube(width, height, length);
    Volume(width, height, length) >= BulkyMaxVolumeCm
  }

  function IsBulky(width: real, height: real, length: real): (b: bool)
    ensures b <==> Volume(width, height, length) >= BulkyMaxVolumeCm
                   || width >= BulkyMaxDimensionLengthCm || height >= BulkyMaxDimensionLengthCm
                   || length >= BulkyMaxDimensionLengthCm
  {
    ExceedsMaxVolume(width, height, length) || ExceedsMaxDimension(width, height, length)
  }

  /** Heavy exactly when the mass reaches the limit, the limit itself included. */
  function IsHeavy(mass: real): (h: bool)
    ensures h <==> mass >= HeavyMaxMassKg
  {
    mass >= HeavyMaxMassKg
  }

  // ---------------------------------------------------------------------------
  // Classification

  /** Validates the arguments, then applies the decision table: bulky and heavy
      is REJECTED, exactly one of them is SPECIAL, neither is STANDARD. */
  function Sort(width: real, height: real, length: real, mass: real): (r: Result<Stack>)
    ensures r.Err? <==> width <= 0.0 || height <= 0.0 || length <= 0.0 || mass <= 0.0
    ensures r.Err? ==> ValidateInput(width, height, length, mass) == Fail(r.error)
    ensures r.Ok? ==> (r.value == REJECTED <==> IsBulky(width, height, length) && IsHeavy(mass))
    ensures r.Ok? ==> (r.value == SPECIAL <==> IsBulky(width, height, length) != IsHeavy(mass))
    ensures r.Ok? ==> (r.value == STANDARD <==> !IsBulky(width, height, length) && !IsHeavy(mass))
  {
    match ValidateInput(width, height, length, mass)
    case Fail(e) => Err(e)
    case Pass =>
      var isBulkyPackage := IsBulky(width, height, length);
      var isHeavyPackage := IsHeavy(mass);
      if isBulkyPackage && isHeavyPackage then Ok(REJECTED)
      else if isBulkyPackage || isHeavyPackage then Ok(SPECIAL)
      else Ok(STANDARD)
  }

  // ---------------------------------------------------------------------------
  // Arithmetic facts about the volume

  lemma MulMonotone(a: real, b: real, c: real)
    requires 0.0 <= a <= b && 0.0 <= c
    ensures a * c <= b * c && c * a <= c * b
  {
  }

  lemma MulStrictMonotone(a: real, b: real, c: real)
    requires a < b && 0.0 < c
    ensures a * c < b * c && c * a < c * b
  {
  }

  /** Growing any side never shrinks the volume. */
  lemma VolumeMonotone(w: real, h: real, l: real, w': real, h': real, l': real)
    requires 0.0 <= w <= w' && 0.0 <= h <= h' && 0.0 <= l <= l'
    ensures Volume(w, h, l) <= Volume(w', h', l')
  {
    MulMonotone(w, w', h);
    MulMonotone(h, h', w');
    assert w * h <= w' * h <= w' * h';
    MulMonotone(w * h, w' * h', l);
    MulMonotone(l, l', w' * h');
  }

  /** A box whose sides are all shorter than `CubeSide` is under the volume limit. */
  lemma VolumeBelowCube(w: real, h: real, l: real)
    requires 0.0 < w < CubeSide && 0.0 < h < CubeSide && 0.0 < l < CubeSide
    ensures Volume(w, h, l) < BulkyMaxVolumeCm
  {
    MulStrictMonotone(w, CubeSide, h);
    assert w * h < 100.0 * h < 10000.0;
    MulStrictMonotone(w * h, 10000.0, l);
    assert w * h * l < 10000.0 * l < BulkyMaxVolumeCm;
  }

  /** A box whose sides all reach `CubeSide` is at or over the volume limit,
      and a box whose sides all fall short of it is under the limit. */
  lemma ExceedsMaxVolumeCube(w: real, h: real, l: real)
    ensures w >= CubeSide && h >= CubeSide && l >= CubeSide ==> Volume(w, h, l) >= BulkyMaxVolumeCm
    ensures 0.0 < w < CubeSide && 0.0 < h < CubeSide && 0.0 < l < CubeSide
            ==> Volume(w, h, l) < BulkyMaxVolumeCm
  {
    if w >= CubeSide && h >= CubeSide && l >= CubeSide {
      VolumeMonotone(CubeSide, CubeSide, CubeSide, w, h, l);
    }
    if 0.0 < w < CubeSide && 0.0 < h < CubeSide && 0.0 < l < CubeSide {
      VolumeBelowCube(w, h, l);
    }
  }

  // ---------------------------------------------------------------------------
  // Properties of the classifier

  /** Any strictly positive measurements, whole or fractional, are accepted. */
  lemma SortAcceptsPositive(width: real, height: real, length: real, mass: real)
    requires width > 0.0 && height > 0.0 && length > 0.0 && mass > 0.0
    ensures Sort(width, height, length, mass).Ok?
    ensures Sort(1.2, 2.1, 3.1, 4.1).Ok?
  {
  }

  /** Each argument is checked on its own: one non-positive argument is enough
      to make `Sort` fail, and the failure names it. */
  lemma SortRejectsEachNonPositive(a: Argument, width: real, height: real, length: real, mass: real)
    requires ArgumentValue(a, width, height, length, mass) <= 0.0
    ensures Sort(width, height, length, mass).Err?
    ensures a in Sort(width, height, length, mass).error.offending
  {
  }

  /** The stack's rank is the number of limits (bulk, weight) the package reaches. */
  lemma SeverityCountsLimits(width: real, height: real, length: real, mass: real)
    requires Sort(width, height, length, mass).Ok?
    ensures Severity(Sort(width, height, length, mass).value)
            == (if IsBulky(width, height, length) then 1 else 0) + (if IsHeavy(mass) then 1 else 0)
  {
  }

  /** A package at least as large and as heavy in every respect is sent to a
      stack at least as severe. */
  lemma SortMonotone(width: real, height: real, length: real, mass: real,
                     width': real, height': real, length': real, mass': real)
    requires Sort(width, height, length, mass).Ok?
    requires width <= width' && height <= height' && length <= length' && mass <= mass'
    ensures Sort(width', height', length', mass').Ok?
    ensures Severity(Sort(width, height, length, mass).value)
            <= Severity(Sort(width', height', length', mass').value)
  {
    VolumeMonotone(width, height, length, width', height', length');
    assert IsBulky(width, height, length) ==> IsBulky(width', height', length');
  }

  /** All three limits are inclusive: a cube of side `CubeSide` with mass
      `HeavyMaxMassKg` sits exactly on the volume and mass limits and is
      REJECTED, a side of exactly `BulkyMaxDimensionLengthCm` is bulky, and
      anything just under each limit is not. */
  lemma ThresholdsInclusive()
    ensures CubeSide * CubeSide * CubeSide == BulkyMaxVolumeCm
    ensures IsBulky(CubeSide, CubeSide, CubeSide) && IsHeavy(HeavyMaxMassKg)
    ensures Sort(CubeSide, CubeSide, CubeSide, HeavyMaxMassKg) == Ok(REJECTED)
    ensures IsBulky(BulkyMaxDimensionLengthCm, 10.0, 10.0) && !IsBulky(149.0, 10.0, 10.0)
    ensures !IsHeavy(19.0)
    ensures Sort(149.0, 10.0, 10.0, 19.0) == Ok(STANDARD)
    ensures Sort(150.0, 10.0, 10.0, 5.0) == Ok(SPECIAL)
  {
  }

  /** The five packages of the test suite: the exact-limit cube, one side longer
      or shorter by 1, and mass at, above or below the limit. */
  lemma TestFixtures()
    ensures Sort(CubeSide, CubeSide, CubeSide, HeavyMaxMassKg) == Ok(REJECTED)
    ensures Sort(CubeSide + 1.0, CubeSide, CubeSide, HeavyMaxMassKg + 1.0) == Ok(REJECTED)
    ensures Sort(CubeSide - 1.0, CubeSide, CubeSide, HeavyMaxMassKg) == Ok(SPECIAL)
    ensures Sort(CubeSide + 1.0, CubeSide, CubeSide, HeavyMaxMassKg - 1.0) == Ok(SPECIAL)
    ensures Sort(CubeSide - 1.0, CubeSide, CubeSide, HeavyMaxMassKg - 1.0) == Ok(STANDARD)
  {
  }
}
