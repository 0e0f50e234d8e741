/** The helmet payload normalizer of server.js: alias lookup (`pickFirst`),
    safe numeric coercion (`toNumber`) and the per-field coercions applied to
    a `POST /api/sensor-data` body before it is merged. */
module Normalizer {
  import opened Options
  import opened Js

  const IdAliases: seq<string> := ["workerId", "worker_id", "id", "ID"]
  const TemperatureAliases: seq<string> := ["temperature", "temp", "Temp", "bodyTemperature", "bodyTemp"]
  const HumidityAliases: seq<string> := ["humidity", "humid", "Humidity", "hum"]
  const GasAliases: seq<string> := ["gasLevel", "gas", "Gas", "gas_level", "gasLevel"]
  const AccelXAliases: seq<string> := ["accelX", "accel_x", "ax", "accelerationX"]
  const AccelYAliases: seq<string> := ["accelY", "accel_y", "ay", "accelerationY"]
  const AccelZAliases: seq<string> := ["accelZ", "accel_z", "az", "accelerationZ"]
  const FallAliases: seq<string> := ["fallDetected", "fall", "fall_detected", "isFallen"]
  const MpuAliases: seq<string> := ["mpuStatus", "mpu_status", "mpu", "status"]
  const TimestampAliases: seq<string> := ["timestamp", "time", "Time", "date"]

  /** The raw values that count as a detected fall under `===`. */
  const FallTokens: set<Value> := {Bool(true), Str("true"), Num(1.0), Str("1")}

  /** `keys[i]` is the first alias that `obj` has as an own property. */
  predicate FirstPresent(obj: Value, keys: seq<string>, i: int) {
    && 0 <= i < |keys|
    && HasOwn(obj, keys[i])
    && forall j :: 0 <= j < i ==> !HasOwn(obj, keys[j])
  }

  /** `pickFirst(obj, keys)`: the value under the first alias present as an
      own key, whatever that value is (null, 0 and "" included); undefined
      when no alias is present or `obj` is not an object. */
  function PickFirst(obj: Value, keys: seq<string>): (r: Value)
    ensures forall i :: FirstPresent(obj, keys, i) ==> r == obj.fields[keys[i]]
    ensures (forall i :: 0 <= i < |keys| ==> !HasOwn(obj, keys[i])) ==> r == Undefined
  {
    if keys == [] then Undefined
    else if HasOwn(obj, keys[0]) then obj.fields[keys[0]]
    else
      var r := PickFirst(obj, keys[1..]);
      assert forall i :: FirstPresent(obj, keys, i) ==> FirstPresent(obj, keys[1..], i - 1);
      r
  }

  /** `toNumber(value)`: `parseFloat` for strings, `Number` for everything
      else, and 0 whenever the outcome is NaN or infinite, overflow included. */
  function ToNumber(v: Value): real {
    var p := Saturate(if v.Str? then ParseFloat(v.s) else ToNumeric(v));
    if p.Finite? then p.value else 0.0
  }

  /** `fallDetected`: strict comparison of the raw value with `true`, "true", 1 and "1". */
  function FallFlag(raw: Value): (b: bool)
    ensures b <==> raw in FallTokens
    ensures raw.Bool? ==> (b <==> raw.b)
    ensures raw.Num? ==> (b <==> raw.n == 1.0)
    ensures raw.Str? ==> (b <==> raw.s == "true" || raw.s == "1")
    // no coercion: null, arrays and objects such as `[1]` are never a fall
    ensures !raw.Bool? && !raw.Num? && !raw.Str? ==> !b
    ensures b ==> Truthy(raw)
  {
    raw == Bool(true) || raw == Str("true") || raw == Num(1.0) || raw == Str("1")
  }

  /** `mpuStatus`: the stringified raw value, or "unknown" when it is falsy. */
  function MpuStatus(raw: Value): (s: string)
    ensures !Truthy(raw) ==> s == "unknown"
    ensures Truthy(raw) ==> s == ToString(raw)
    ensures raw.Str? && raw.s != "" ==> s == raw.s
    ensures raw.Bool? ==> s == (if raw.b then "true" else "unknown")
    ensures raw.Obj? ==> s == "[object Object]"
  {
    if Truthy(raw) then ToString(raw) else "unknown"
  }

  /** The normalized helmet payload. `workerId` is `Str(id)` or `Null`, as
      after `workerIdRaw ? String(workerIdRaw) : null`. */
  datatype Reading = Reading(
    workerId: Value,
    temperature: real,
    humidity: real,
    gasLevel: real,
    accelX: real,
    accelY: real,
    accelZ: real,
    fallDetected: bool,
    mpuStatus: string,
    timestampRaw: Value)

  /** Every logical field looked up under its aliases and coerced. */
  function Normalize(body: Value): Reading {
    var idRaw := PickFirst(body, IdAliases);
    Reading(
      workerId := if Truthy(idRaw) then Str(ToString(idRaw)) else Null,
      temperature := ToNumber(PickFirst(body, TemperatureAliases)),
      humidity := ToNumber(PickFirst(body, HumidityAliases)),
      gasLevel := ToNumber(PickFirst(body, GasAliases)),
      accelX := ToNumber(PickFirst(body, AccelXAliases)),
      accelY := ToNumber(PickFirst(body, AccelYAliases)),
      accelZ := ToNumber(PickFirst(body, AccelZAliases)),
      fallDetected := FallFlag(PickFirst(body, FallAliases)),
      mpuStatus := MpuStatus(PickFirst(body, MpuAliases)),
      timestampRaw := PickFirst(body, TimestampAliases))
  }

  // ---------------------------------------------------------------------
  // Properties
  // ---------------------------------------------------------------------

  /** A number a double can hold is kept as it is, one beyond that range
      (Infinity after `JSON.parse`) becomes 0, and a string holding an
      integer numeral (as an embedded sender writes it) is read as that
      integer. */
  lemma ToNumberOfNumerals(r: real, n: int)
    ensures !Overflows(r) ==> ToNumber(Num(r)) == r
    ensures Overflows(r) ==> ToNumber(Num(r)) == 0.0
    ensures -ExactIntegerBound <= n <= ExactIntegerBound ==> ToNumber(Str(IntToString(n))) == n as real
  {
    ToNumberOfIntNumeral(n);
  }

  /** The numeral `String` writes for an integer is read back as that
      integer while a double holds it exactly, and as 0 once it overflows. */
  lemma ToNumberOfIntNumeral(n: int)
    ensures -ExactIntegerBound <= n <= ExactIntegerBound ==> ToNumber(Str(IntToString(n))) == n as real
    ensures Overflows(n as real) ==> ToNumber(Str(IntToString(n))) == 0.0
  {
    ParseFloatOfIntToString(n);
  }

  /** "0x29" is a hexadecimal literal for 41. */
  lemma RadixLiteralOfHexSample()
    ensures RadixLiteral("0x29") == Some(41)
  {
    var t := "0x29";
    assert t[1] == 'x' && t[2..] == "29";
    assert "29"[1..] == "9";
    assert RadixDigits("9", 16, 2) == Some(41) by {
      assert "9"[1..] == [];
    }
  }

  /** `Number("0x29")` is 41. */
  lemma StringToNumberOfHexSample()
    ensures StringToNumber("0x29") == Finite(41.0)
  {
    assert TrimStart("0x29") == "0x29";
    assert TrimEnd("0x29") == "0x29";
    RadixLiteralOfHexSample();
  }

  /** The decimal scan of "0x29" takes the leading 0 and stops at the `x`. */
  lemma ScanOfHexSample()
    ensures ScanUnsigned("0x29") == Some((Finite(0.0), 1))
  {
    var u := "0x29";
    assert LeadingDigits(u) == 1 by {
      assert u[1..] == "x29";
      assert LeadingDigits("x29") == 0;
    }
    assert u[1] == 'x';
    assert u[..1] == "0";
    assert DigitsValue("0") == 0 by {
      assert "0"[..0] == [];
    }
    assert u[1..] == "x29";
    assert ScanExponent("x29") == (0, 0);
    assert Scale(0, 0) == 0.0;
  }

  /** `parseFloat("0x29")` reads the leading 0 and stops at the `x`. */
  lemma ParseFloatOfHexSample()
    ensures ParseFloat("0x29") == Finite(0.0)
  {
    assert TrimStart("0x29") == "0x29";
    assert ScanDecimal("0x29") == Some((Finite(0.0), 1)) by {
      ScanOfHexSample();
      assert "0x29"[0] == '0';
    }
  }

  /** `String(["0x29"])` is its one element. */
  lemma ToStringOfHexArray()
    ensures ToString(Arr([Str("0x29")])) == "0x29"
  {
    var v := Arr([Str("0x29")]);
    assert JoinFrom(v, 0) == ToString(Str("0x29"));
  }

  /** `Number` reads a hexadecimal literal, `parseFloat` stops at its `x`:
      `["0x29"]` is 41 while `"0x29"` is 0. */
  lemma ToNumberOfHexLiteral()
    ensures ToNumber(Arr([Str("0x29")])) == 41.0
    ensures ToNumber(Str("0x29")) == 0.0
  {
    assert ToNumeric(Arr([Str("0x29")])) == Finite(41.0) by {
      ToStringOfHexArray();
      StringToNumberOfHexSample();
    }
    ParseFloatOfHexSample();
  }

  /** Missing, null, false and text without a leading number all become 0:
      the fallback never produces NaN. */
  lemma ToNumberFallsBackToZero(s: string)
    requires ScanDecimal(TrimStart(s)).None?
    ensures ToNumber(Undefined) == 0.0
    ensures ToNumber(Null) == 0.0
    ensures ToNumber(Bool(false)) == 0.0
    ensures ToNumber(Str(s)) == 0.0
  {
    assert ToNumeric(Undefined) == NaN;
    assert ToNumeric(Null) == Finite(0.0);
    assert ToNumeric(Bool(false)) == Finite(0.0);
    assert ParseFloat(s) == NaN;
  }

  /** "Infinity" parses to an infinite number, which `toNumber` replaces by 0. */
  lemma ToNumberOfInfinity()
    ensures ToNumber(Str("Infinity")) == 0.0
  {
    assert TrimStart("Infinity") == "Infinity";
    assert "Infinity"[..8] == "Infinity";
  }

  /** The decimal scanner reads "41.5C" as 41.5, stopping at the unit. */
  lemma ScanOfSensorText()
    ensures ScanUnsigned("41.5C") == Some((Finite(41.5), 4))
  {
    var u := "41.5C";
    assert LeadingDigits(u) == 2 by {
      assert LeadingDigits(u[2..]) == 0;
      assert LeadingDigits(u[1..]) == 1;
    }
    assert LeadingDigits(u[3..]) == 1 by {
      assert u[3..][1..] == "C";
      assert LeadingDigits("C") == 0;
    }
    assert u[..2] + u[3..][..1] == "415";
    assert DigitsValue("415") == 415 by {
      assert "415"[..2] == "41";
      assert "41"[..1] == "4";
    }
    assert u[4..] == "C";
    assert ScanExponent("C") == (0, 0);
    assert Scale(415, -1) == 41.5;
  }

  /** `parseFloat` skips the leading blank of " 41.5C" and reads 41.5. */
  lemma ParseFloatOfSensorText()
    ensures ParseFloat(" 41.5C") == Finite(41.5)
  {
    TrimSensorText();
    assert ScanDecimal("41.5C") == Some((Finite(41.5), 4)) by {
      ScanOfSensorText();
      assert "41.5C"[0] == '4';
    }
  }

  /** The leading blank of " 41.5C" is white space, and "4" is not. */
  lemma TrimSensorText()
    ensures TrimStart(" 41.5C") == "41.5C"
  {
    TrimDigitText();
    var s := " 41.5C";
    assert s[0] == ' ' && s[1..] == "41.5C";
  }

  /** "41.5C" starts with a digit, so there is nothing to trim. */
  lemma TrimDigitText()
    ensures TrimStart("41.5C") == "41.5C"
  {
    assert "41.5C"[0] == '4';
  }

  /** Leading white space is skipped and text after the number is ignored. */
  lemma ToNumberOfSensorText()
    ensures ToNumber(Str(" 41.5C")) == 41.5
  {
    ParseFloatOfSensorText();
  }
}
