/**
 * Typed values of the configuration store. A record has one of the four types
 * "char", "u32", "s32" and "f32", and its value is kept as text in a canonical form:
 * integers are re-printed from their parse ("0001234" is kept as "1234") and floats
 * are re-printed and stripped of trailing zeros and a trailing point.
 */
module DataValues {
  import opened Common
  import Numbers
  import DbErrors

  /** `VALID_TYPES`. */
  const VALID_TYPES: set<string> := {"char", "u32", "s32", "f32"}

  /** `validateType`. */
  predicate ValidateType(t: string)
  {
    t in VALID_TYPES
  }

  lemma ValidTypesAreExactlyFour(t: string)
    ensures ValidateType(t) <==> t == "char" || t == "u32" || t == "s32" || t == "f32"
  {
  }

  /** `s.erase(s.find_last_not_of(c) + 1)`: the longest prefix not ending in `c`. */
  function DropTrailing(s: string, c: char): (r: string)
    ensures IsPrefix(r, s)
    ensures r == [] || r[|r| - 1] != c
    ensures forall k :: |r| <= k < |s| ==> s[k] == c
  {
    if s == [] || s[|s| - 1] != c then s else DropTrailing(s[..|s| - 1], c)
  }

  /**
   * `trimmingFloatString`: drop the trailing '0's, then the trailing '.'s. The result
   * is a prefix of the input, never ends in '.', and only '0's and '.'s were removed,
   * the '.'s before the '0's.
   */
  function TrimmingFloatString(s: string): (r: string)
    ensures IsPrefix(r, s)
    ensures r == [] || r[|r| - 1] != '.'
    ensures forall k :: |r| <= k < |s| ==> s[k] == '0' || s[k] == '.'
    ensures forall i, j :: |r| <= i < j < |s| && s[i] == '0' ==> s[j] == '0'
  {
    var z := DropTrailing(s, '0');
    var r := DropTrailing(z, '.');
    assert forall k :: |r| <= k < |z| ==> s[k] == z[k];
    r
  }

  /** `DropTrailing` removes exactly the trailing run of `c`. */
  lemma {:induction false} DropTrailingExact(p: string, t: string, c: char)
    requires p == [] || p[|p| - 1] != c
    requires forall k :: 0 <= k < |t| ==> t[k] == c
    ensures DropTrailing(p + t, c) == p
  {
    if t == [] {
      assert p + t == p;
    } else {
      assert (p + t)[..|p + t| - 1] == p + t[..|t| - 1];
      DropTrailingExact(p, t[..|t| - 1], c);
    }
  }

  /**
   * On `std::to_string` output "I.F000…" (integer part I, fraction F not ending in '0')
   * trimming keeps "I.F", and keeps only "I" when the fraction is all zeros, so
   * "1.500000" becomes "1.5" and "100.000000" becomes "100".
   */
  lemma TrimmingFixedPoint(i: string, f: string, zeros: string)
    requires |i| > 0 && i[|i| - 1] != '.'
    requires f == [] || (f[|f| - 1] != '0' && f[|f| - 1] != '.')
    requires forall k :: 0 <= k < |zeros| ==> zeros[k] == '0'
    ensures f != [] ==> TrimmingFloatString(i + "." + f + zeros) == i + "." + f
    ensures f == [] ==> TrimmingFloatString(i + "." + zeros) == i
  {
    if f != [] {
      DropTrailingExact(i + "." + f, zeros, '0');
      DropTrailingExact(i + "." + f, [], '.');
      assert i + "." + f + [] == i + "." + f;
    } else {
      DropTrailingExact(i + ".", zeros, '0');
      DropTrailingExact(i, ".", '.');
    }
  }

  /**
   * `std::to_string(std::stof(v))`, which the model does not compute: `None` when
   * `stof` throws, otherwise the six-decimal text of the parsed float.
   */
  type FloatFormatter = string -> Option<string>

  predicate HasSpace(v: string)
  {
    exists k :: 0 <= k < |v| && v[k] == ' '
  }

  /** `validateAndFormatData`: `None` for `false`, otherwise the formatted value. */
  function ValidateAndFormat(t: string, v: string, floatText: FloatFormatter): (r: Option<string>)
    ensures !ValidateType(t) ==> r == None
    ensures (t == "u32" || t == "s32") && HasSpace(v) ==> r == None
    ensures t == "char" ==> r == Some(v)
    ensures t == "s32" ==> (r.Some? <==> !HasSpace(v) && Numbers.Stoi(v).Some?)
    ensures t == "s32" && r.Some? ==> r.value == IntToString(Numbers.Stoi(v).value)
    ensures t == "u32" ==> (r.Some? <==> !HasSpace(v) && (v == [] || v[0] != '-') && Numbers.Stoul(v).Some?)
    ensures t == "u32" && r.Some? ==> r.value == NatToString(Numbers.Stoul(v).value)
    ensures t == "f32" ==> (r.Some? <==> floatText(v).Some?)
    ensures t == "f32" && r.Some? ==> r.value == TrimmingFloatString(floatText(v).value)
  {
    if (t == "u32" || t == "s32") && Find(v, " ").Some? then
      assert v[Find(v, " ").value] == ' ';
      None
    else if t == "char" then Some(v)
    else if t == "s32" then
      assert !HasSpace(v) by { NoSpaceFound(v); }
      match Numbers.Stoi(v)
      case None => None
      case Some(i) => Some(IntToString(i))
    else if t == "u32" then
      assert !HasSpace(v) by { NoSpaceFound(v); }
      // `p_value[0]` on an empty string reads the terminating NUL, which is not '-'.
      if v != [] && v[0] == '-' then None
      else
        match Numbers.Stoul(v)
        case None => None
        case Some(n) => Some(NatToString(n))
    else if t == "f32" then
      match floatText(v)
      case None => None
      case Some(f) => Some(TrimmingFloatString(f))
    else None
  }

  lemma NoSpaceFound(v: string)
    requires Find(v, " ").None?
    ensures !HasSpace(v)
  {
    if HasSpace(v) {
      var k :| 0 <= k < |v| && v[k] == ' ';
      assert OccursAt(v, " ", k) by { assert v[k..k + 1] == [v[k]]; }
    }
  }

  lemma DigitsHaveNoSpace(s: string)
    requires forall k :: 0 <= k < |s| ==> IsDigit(s[k]) || s[k] == '-'
    ensures !HasSpace(s)
  {
  }

  /**
   * Formatting is idempotent for the integer and text types: a value already stored
   * in canonical form is accepted again unchanged, so saving and re-loading a record
   * does not alter it.
   */
  lemma {:induction false} FormatIdempotent(t: string, v: string, floatText: FloatFormatter)
    requires t == "char" || t == "s32" || t == "u32"
    requires ValidateAndFormat(t, v, floatText).Some?
    ensures var f := ValidateAndFormat(t, v, floatText).value;
      ValidateAndFormat(t, f, floatText) == Some(f)
  {
    var f := ValidateAndFormat(t, v, floatText).value;
    if t == "s32" {
      var i := Numbers.Stoi(v).value;
      Numbers.StoiOfIntToString(i);
      DigitsHaveNoSpace(f);
    } else if t == "u32" {
      var n := Numbers.Stoul(v).value;
      Numbers.StoulOfNatToString(n);
      DigitsHaveNoSpace(f);
    }
  }

  /** The accepted s32 values are exactly the integer texts `int` can hold. */
  lemma S32Range(v: string, floatText: FloatFormatter)
    requires ValidateAndFormat("s32", v, floatText).Some?
    ensures Numbers.INT_MIN <= Numbers.Stoi(v).value <= Numbers.INT_MAX
  {
  }

  /**
   * "u32" accepts every `unsigned long`, not only 32-bit values: the check goes
   * through `std::stoul`, which is 64 bits wide.
   */
  lemma U32AcceptsLargeValues(floatText: FloatFormatter)
    ensures ValidateAndFormat("u32", NatToString(0x1_0000_0000), floatText) == Some(NatToString(0x1_0000_0000))
  {
    Numbers.StoulOfNatToString(0x1_0000_0000);
    DigitsHaveNoSpace(NatToString(0x1_0000_0000));
  }

  /** The header's example: "0001234" is stored as "1234". */
  lemma LeadingZerosFormatted(floatText: FloatFormatter)
    ensures ValidateAndFormat("u32", "000" + NatToString(1234), floatText) == Some(NatToString(1234))
  {
    var v := "000" + NatToString(1234);
    Numbers.StoulLeadingZeros("000", 1234);
    assert forall k :: 0 <= k < |v| ==> IsDigit(v[k]);
    DigitsHaveNoSpace(v);
  }

  /** A record's type and its formatted value, held by value in the store's map. */
  datatype DataValue = DataValue(valueType: string, value: string)
  {
    /** `getDataValue`: type, one space, value. */
    function GetDataValue(): (r: string)
      ensures r == valueType + " " + value
      ensures r[|valueType|] == ' ' && r[..|valueType|] == valueType && r[|valueType| + 1..] == value
    {
      valueType + " " + value
    }

    /** `getTypeToSave`. */
    function GetTypeToSave(): (r: string)
      ensures r == valueType
    {
      valueType
    }

    /** `getValueToSave`: the value wrapped in double quotes. */
    function GetValueToSave(): (r: string)
      ensures |r| == |value| + 2 && r[0] == '"' && r[|r| - 1] == '"' && r[1..|r| - 1] == value
    {
      "\"" + value + "\""
    }

    /** `setDataValue`: both fields are overwritten. */
    function SetDataValue(t: string, v: string): (d: DataValue)
      ensures d.valueType == t && d.value == v
    {
      DataValue(t, v)
    }
  }

  /** What `std::variant<int, unsigned long, float, char const *>` can hold. */
  datatype Variant =
    | VInt(i: int)
    | VULong(u: nat)
    | VFloat(text: string)
    | VChars(chars: string)

  /** A thrown exception: a database kind or a standard conversion error. */
  datatype Thrown = Db(kind: DbErrors.ExceptionType) | StdConversion

  /**
   * `getValue`: the converted value by type; INVALID_TYPE for an unknown type; a
   * standard exception when `stoi`/`stoul` cannot convert. A float is returned as
   * its stored text.
   */
  function GetValue(d: DataValue): (r: Result<Variant, Thrown>)
    ensures d.valueType == "char" ==> r == Ok(VChars(CString(d.value)))
    ensures d.valueType == "s32" ==>
      (r.Ok? <==> Numbers.Stoi(d.value).Some?) && (r.Ok? ==> r.value == VInt(Numbers.Stoi(d.value).value))
    ensures d.valueType == "u32" ==>
      (r.Ok? <==> Numbers.Stoul(d.value).Some?) && (r.Ok? ==> r.value == VULong(Numbers.Stoul(d.value).value))
    ensures d.valueType == "f32" ==> r == Ok(VFloat(d.value))
    ensures !ValidateType(d.valueType) ==> r == Err(Db(DbErrors.INVALID_TYPE))
  {
    if d.valueType == "char" then Ok(VChars(CString(d.value)))
    else if d.valueType == "s32" then
      match Numbers.Stoi(d.value)
      case Some(i) => Ok(VInt(i))
      case None => Err(StdConversion)
    else if d.valueType == "u32" then
      match Numbers.Stoul(d.value)
      case Some(n) => Ok(VULong(n))
      case None => Err(StdConversion)
    else if d.valueType == "f32" then Ok(VFloat(d.value))
    else Err(Db(DbErrors.INVALID_TYPE))
  }

  /** A stored integer value always converts, to the number it was formatted from. */
  lemma GetValueOfFormatted(t: string, v: string, floatText: FloatFormatter)
    requires t == "s32" || t == "u32"
    requires ValidateAndFormat(t, v, floatText).Some?
    ensures var d := DataValue(t, ValidateAndFormat(t, v, floatText).value);
      GetValue(d).Ok? &&
      (t == "s32" ==> GetValue(d).value == VInt(Numbers.Stoi(v).value)) &&
      (t == "u32" ==> GetValue(d).value == VULong(Numbers.Stoul(v).value))
  {
    if t == "s32" {
      Numbers.StoiOfIntToString(Numbers.Stoi(v).value);
    } else {
      Numbers.StoulOfNatToString(Numbers.Stoul(v).value);
    }
  }
}
