/** `UnitConverter`: conversion of grid sizes between pixels and physical
    units at a fixed 96 dots per inch. Values are exact reals, so the
    factors are the exact rationals 96, 96/2.54 and 96/25.4. */
module UnitConverter {

  import opened Wrappers

  /** `DEFAULT_DPI`. */
  const DefaultDpi: real := 96.0

  /** `CONVERSIONS`: pixels per unit, in the dictionary's insertion order. */
  const Conversions: seq<(string, real)> :=
    [("px", 1.0), ("cm", DefaultDpi / 2.54), ("mm", DefaultDpi / 25.4), ("inch", DefaultDpi)]

  /** The display names used by `get_unit_display_name`. */
  const DisplayNames: seq<(string, string)> :=
    [("px", "Pixels"), ("cm", "Centimeters"), ("mm", "Millimeters"), ("inch", "Inches")]

  /** The keys of a table, in order. */
  function Keys<V>(table: seq<(string, V)>): (keys: seq<string>)
  {
    seq(|table|, i requires 0 <= i < |table| => table[i].0)
  }

  /** Dictionary lookup: the value stored under `key`, if any. */
  function Lookup<V>(table: seq<(string, V)>, key: string): (r: Option<V>)
    ensures r.Some? <==> key in Keys(table)
    ensures r.Some? ==> (key, r.value) in table
  {
    if table == [] then None
    else if table[0].0 == key then
      assert Keys(table)[0] == key;
      Some(table[0].1)
    else
      var r := Lookup(table[1..], key);
      assert Keys(table) == [table[0].0] + Keys(table[1..]);
      r
  }

  /** `to_pixels`: the value times the unit's factor, or an error for a unit
      outside the table. */
  function ToPixels(value: real, unit: string): (r: Result<real>)
    ensures r.Ok? <==> unit in GetAvailableUnits()
    ensures r.Err? ==> r.message == "Unsupported unit: " + unit
    ensures r.Ok? ==> (r.value > 0.0 <==> value > 0.0) && (r.value == 0.0 <==> value == 0.0)
  {
    match Lookup(Conversions, unit)
    case None => Err("Unsupported unit: " + unit)
    case Some(factor) =>
      PositiveFactor(unit);
      Ok(value * factor)
  }

  /** `from_pixels`: the pixel count divided by the unit's factor, or an
      error for a unit outside the table. */
  function FromPixels(pixels: real, unit: string): (r: Result<real>)
    ensures r.Ok? <==> unit in GetAvailableUnits()
    ensures r.Err? ==> r.message == "Unsupported unit: " + unit
    ensures r.Ok? ==> (r.value > 0.0 <==> pixels > 0.0) && (r.value == 0.0 <==> pixels == 0.0)
  {
    match Lookup(Conversions, unit)
    case None => Err("Unsupported unit: " + unit)
    case Some(factor) =>
      PositiveFactor(unit);
      Ok(pixels / factor)
  }

  /** `convert`: to pixels in the first unit, then from pixels in the second;
      the first unit's error wins. */
  function Convert(value: real, fromUnit: string, toUnit: string): (r: Result<real>)
    ensures r.Ok? <==> fromUnit in GetAvailableUnits() && toUnit in GetAvailableUnits()
    ensures fromUnit !in GetAvailableUnits() ==> r == Err("Unsupported unit: " + fromUnit)
    ensures fromUnit in GetAvailableUnits() && toUnit !in GetAvailableUnits() ==> r == Err("Unsupported unit: " + toUnit)
    ensures r.Ok? ==> (r.value > 0.0 <==> value > 0.0) && (r.value == 0.0 <==> value == 0.0)
  {
    match ToPixels(value, fromUnit)
    case Err(message) => Err(message)
    case Ok(pixels) => FromPixels(pixels, toUnit)
  }

  /** `get_available_units`: the table's units in order. */
  function GetAvailableUnits(): (units: seq<string>)
    ensures units == ["px", "cm", "mm", "inch"]
  {
    Keys(Conversions)
  }

  /** `get_unit_display_name`: the unit's name, or the unit itself when it
      has none. */
  function GetUnitDisplayName(unit: string): (name: string)
    ensures unit == "px" ==> name == "Pixels"
    ensures unit == "cm" ==> name == "Centimeters"
    ensures unit == "mm" ==> name == "Millimeters"
    ensures unit == "inch" ==> name == "Inches"
    ensures unit !in GetAvailableUnits() ==> name == unit
  {
    match Lookup(DisplayNames, unit)
    case None => unit
    case Some(name) => name
  }

  /** Pixels per unit of each supported unit. */
  lemma Factors()
    ensures Lookup(Conversions, "px") == Some(1.0)
    ensures Lookup(Conversions, "cm") == Some(9600.0 / 254.0)
    ensures Lookup(Conversions, "mm") == Some(960.0 / 254.0)
    ensures Lookup(Conversions, "inch") == Some(96.0)
    ensures forall u :: u in GetAvailableUnits() ==> Lookup(Conversions, u).Some? && Lookup(Conversions, u).value > 0.0
  {
    var t1 := Conversions[1..];
    var t2 := t1[1..];
    var t3 := t2[1..];
    assert Lookup(t3, "inch") == Some(96.0);
    assert Lookup(t2, "mm") == Some(960.0 / 254.0);
    assert Lookup(t2, "inch") == Lookup(t3, "inch");
    assert Lookup(t1, "cm") == Some(9600.0 / 254.0);
    assert Lookup(t1, "mm") == Lookup(t2, "mm");
    assert Lookup(t1, "inch") == Lookup(t2, "inch");
  }

  /** Every supported unit has a positive factor. */
  lemma PositiveFactor(unit: string)
    requires unit in GetAvailableUnits()
    ensures Lookup(Conversions, unit).Some? && Lookup(Conversions, unit).value > 0.0
  {
    Factors();
  }

  /** For a supported unit, `to_pixels` multiplies by its factor. */
  lemma ToPixelsValue(v: real, unit: string)
    requires unit in GetAvailableUnits()
    ensures ToPixels(v, unit) == Ok(v * Lookup(Conversions, unit).value)
  {
    PositiveFactor(unit);
    var r := ToPixels(v, unit);
    assert r.Ok? && r.value == v * Lookup(Conversions, unit).value;
    assert r == Ok(r.value);
  }

  /** For a supported unit, `from_pixels` divides by its factor. */
  lemma FromPixelsValue(pixels: real, unit: string)
    requires unit in GetAvailableUnits()
    ensures FromPixels(pixels, unit) == Ok(pixels / Lookup(Conversions, unit).value)
  {
    PositiveFactor(unit);
    var r := FromPixels(pixels, unit);
    assert r.Ok? && r.value == pixels / Lookup(Conversions, unit).value;
    assert r == Ok(r.value);
  }

  /** Pixels stay pixels; an inch is 96 pixels. */
  lemma ToPixelsExamples(v: real)
    ensures ToPixels(v, "px") == Ok(v)
    ensures ToPixels(v, "inch") == Ok(96.0 * v)
  {
    Factors();
    assert Lookup(Conversions, "inch") == Some(96.0);
    assert ToPixels(v, "inch").Ok?;
    assert ToPixels(v, "inch").value == v * 96.0;
    assert ToPixels(v, "inch") == Ok(ToPixels(v, "inch").value);
  }

  /** Multiplying and dividing by the same non-zero factor cancel. */
  lemma Cancel(x: real, f: real)
    requires f != 0.0
    ensures (x * f) / f == x && (x / f) * f == x
  {
  }

  /** Both conversions fail exactly for units outside px, cm, mm and inch. */
  lemma UnsupportedUnit(v: real, unit: string)
    ensures ToPixels(v, unit).Err? <==> unit !in ["px", "cm", "mm", "inch"]
    ensures FromPixels(v, unit).Err? <==> unit !in ["px", "cm", "mm", "inch"]
  {
    Factors();
  }

  /** Converting to pixels and back gives the value back, for every unit. */
  lemma PixelsRoundTrip(v: real, unit: string)
    requires unit in GetAvailableUnits()
    ensures ToPixels(v, unit).Ok?
    ensures FromPixels(ToPixels(v, unit).value, unit) == Ok(v)
  {
    PositiveFactor(unit);
    var f := Lookup(Conversions, unit).value;
    Cancel(v, f);
    var pixels := ToPixels(v, unit);
    assert pixels.Ok? && pixels.value == v * f;
    var back := FromPixels(pixels.value, unit);
    assert back.Ok? && back.value == v;
    assert back == Ok(back.value);
  }

  /** Converting pixels to a unit and back gives the pixel count back. */
  lemma PixelsRoundTripReverse(pixels: real, unit: string)
    requires unit in GetAvailableUnits()
    ensures FromPixels(pixels, unit).Ok?
    ensures ToPixels(FromPixels(pixels, unit).value, unit) == Ok(pixels)
  {
    PositiveFactor(unit);
    var f := Lookup(Conversions, unit).value;
    Cancel(pixels, f);
    assert ToPixels(FromPixels(pixels, unit).value, unit).value == pixels;
  }

  /** `convert` is `from_pixels` after `to_pixels`: an unsupported source
      unit is reported first, then an unsupported target unit. */
  lemma ConvertComposes(v: real, fromUnit: string, toUnit: string)
    ensures fromUnit !in GetAvailableUnits() ==> Convert(v, fromUnit, toUnit) == Err("Unsupported unit: " + fromUnit)
    ensures fromUnit in GetAvailableUnits() ==>
      && ToPixels(v, fromUnit).Ok?
      && Convert(v, fromUnit, toUnit) == FromPixels(ToPixels(v, fromUnit).value, toUnit)
    ensures fromUnit in GetAvailableUnits() && toUnit !in GetAvailableUnits() ==>
      Convert(v, fromUnit, toUnit) == Err("Unsupported unit: " + toUnit)
  {
    if fromUnit in GetAvailableUnits() {
      ToPixelsValue(v, fromUnit);
    }
  }

  /** `convert` multiplies by the ratio of the two units' factors. */
  lemma ConvertRatio(v: real, fromUnit: string, toUnit: string)
    requires fromUnit in GetAvailableUnits() && toUnit in GetAvailableUnits()
    ensures Convert(v, fromUnit, toUnit)
      == Ok(v * Lookup(Conversions, fromUnit).value / Lookup(Conversions, toUnit).value)
    ensures Lookup(Conversions, fromUnit).value > 0.0 && Lookup(Conversions, toUnit).value > 0.0
  {
    PositiveFactor(fromUnit);
    PositiveFactor(toUnit);
    ToPixelsValue(v, fromUnit);
    FromPixelsValue(v * Lookup(Conversions, fromUnit).value, toUnit);
  }

  /** Converting to the same unit changes nothing. */
  lemma ConvertSame(v: real, unit: string)
    requires unit in GetAvailableUnits()
    ensures Convert(v, unit, unit) == Ok(v)
  {
    var f := Lookup(Conversions, unit).value;
    ConvertRatio(v, unit, unit);
    Cancel(v, f);
    assert Convert(v, unit, unit).value == v;
  }

  /** Converting to another unit and back again gives the value back. */
  lemma ConvertRoundTrip(v: real, fromUnit: string, toUnit: string)
    requires fromUnit in GetAvailableUnits() && toUnit in GetAvailableUnits()
    ensures Convert(v, fromUnit, toUnit).Ok?
    ensures Convert(Convert(v, fromUnit, toUnit).value, toUnit, fromUnit) == Ok(v)
  {
    PixelsRoundTrip(v, fromUnit);
    var pixels := ToPixels(v, fromUnit).value;
    PixelsRoundTripReverse(pixels, toUnit);
    var w := FromPixels(pixels, toUnit).value;
    assert Convert(v, fromUnit, toUnit) == FromPixels(pixels, toUnit);
    assert ToPixels(w, toUnit) == Ok(pixels);
  }

  /** The units agree with each other: 10 mm make a centimetre, 2.54 cm an
      inch, and an inch is 2.54 cm when converted. */
  lemma UnitsConsistent(v: real)
    ensures ToPixels(10.0 * v, "mm") == ToPixels(v, "cm")
    ensures ToPixels(2.54 * v, "cm") == ToPixels(v, "inch")
    ensures Convert(v, "inch", "cm") == Ok(2.54 * v)
    ensures Convert(v, "cm", "mm") == Ok(10.0 * v)
  {
    Factors();
    assert ToPixels(v, "inch") == Ok(v * 96.0);
    assert ToPixels(2.54 * v, "cm") == Ok(2.54 * v * (9600.0 / 254.0));
  }

  /** The four units have four different display names, none of which is
      itself a unit. */
  lemma DisplayNamesDistinct(u: string, w: string)
    requires u in GetAvailableUnits() && w in GetAvailableUnits() && u != w
    ensures GetUnitDisplayName(u) != GetUnitDisplayName(w)
    ensures GetUnitDisplayName(u) !in GetAvailableUnits()
  {
    var name, other := GetUnitDisplayName(u), GetUnitDisplayName(w);
    assert |name| >= 6 && |other| >= 6;
    assert name[0] != other[0];
    assert forall unit :: unit in GetAvailableUnits() ==> |unit| <= 4;
  }
}
