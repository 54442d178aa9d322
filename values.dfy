/** The JavaScript values the envelope builder and the directive handlers pass
    around: option bags, JSON payloads and the strings kept in the device store.
    Numbers are integers plus NaN; floating point is not modelled. */
module Values {

  datatype Option<+T> = None | Some(value: T)
  {
    function GetOr(default: T): T
    {
      match this
      case None => default
      case Some(v) => v
    }
  }

  /** A JavaScript number: an integer or NaN. */
  datatype Number = Finite(n: int) | NaN
  {
    /** JavaScript `+` with an integer right operand: NaN absorbs. */
    function Plus(delta: int): (r: Number)
      ensures r.NaN? <==> this.NaN?
      ensures r.Finite? ==> r.n - delta == this.n
    {
      match this
      case NaN => NaN
      case Finite(x) => Finite(x + delta)
    }
  }

  /** A JavaScript value as it occurs in the JSON messages. `Undefined` stands
      for a missing key; `Obj` keeps its keys in insertion order. */
  datatype Value =
    | Undefined
    | Bool(b: bool)
    | Num(num: Number)
    | Str(s: string)
    | Arr(items: seq<Value>)
    | Obj(fields: seq<(string, Value)>)

  /** JavaScript truthiness. */
  predicate Truthy(v: Value)
  {
    match v
    case Undefined => false
    case Bool(b) => b
    case Num(x) => x.Finite? && x.n != 0
    case Str(s) => s != ""
    case Arr(_) => true
    case Obj(_) => true
  }

  /** `v[key]` on an object: the value of the first field named `key`. */
  function Field(v: Value, key: string): (r: Value)
    ensures !v.Obj? ==> r == Undefined
  {
    match v
    case Obj(fields) => Lookup(fields, key)
    case _ => Undefined
  }

  function Lookup(fields: seq<(string, Value)>, key: string): (r: Value)
    ensures fields != [] && fields[0].0 == key ==> r == fields[0].1
  {
    if fields == [] then Undefined
    else if fields[0].0 == key then fields[0].1
    else Lookup(fields[1..], key)
  }

  /** A string field that may be missing, read as a JavaScript value. */
  function OfOption(o: Option<string>): (v: Value)
    ensures v.Undefined? <==> o.None?
    ensures o.Some? ==> v == Str(o.value)
  {
    match o
    case None => Undefined
    case Some(s) => Str(s)
  }

  /** True when a string field is present and non-empty, as `if (x)` tests it. */
  predicate IsSet(o: Option<string>)
  {
    Truthy(OfOption(o))
  }

  // ---------------------------------------------------------------------
  // Decimal rendering and parsing (`String(n)` and `Number(s)`)
  // ---------------------------------------------------------------------

  predicate IsDigit(c: char)
  {
    '0' <= c <= '9'
  }

  predicate AllDigits(s: string)
  {
    forall i :: 0 <= i < |s| ==> IsDigit(s[i])
  }

  function DigitChar(d: nat): (c: char)
    requires d < 10
    ensures IsDigit(c) && c as int - '0' as int == d
  {
    ('0' as int + d) as char
  }

  /** The shortest decimal spelling of a natural number. */
  function NatToDecimal(n: nat): (s: string)
    ensures 1 <= |s| && AllDigits(s)
    ensures s[0] == '0' ==> n == 0
    decreases n
  {
    if n < 10 then [DigitChar(n)] else NatToDecimal(n / 10) + [DigitChar(n % 10)]
  }

  /** The value of a string of decimal digits (the empty string reads as 0). */
  function DecimalToNat(s: string): nat
    requires AllDigits(s)
    decreases |s|
  {
    if s == [] then 0 else DecimalToNat(s[..|s| - 1]) * 10 + (s[|s| - 1] as int - '0' as int)
  }

  lemma {:induction false} DecimalRoundTrip(n: nat)
    ensures DecimalToNat(NatToDecimal(n)) == n
    decreases n
  {
    if n >= 10 {
      var s := NatToDecimal(n);
      assert s[..|s| - 1] == NatToDecimal(n / 10);
      DecimalRoundTrip(n / 10);
    }
  }

  /** Every number from 10000 to 99999 is spelled with exactly five digits. */
  lemma FiveDigits(n: nat)
    requires 10000 <= n <= 99999
    ensures |NatToDecimal(n)| == 5
  {
    var n1 := n / 10;
    var n2 := n1 / 10;
    var n3 := n2 / 10;
    var n4 := n3 / 10;
    assert 1 <= n4 < 10;
    assert |NatToDecimal(n4)| == 1;
    assert |NatToDecimal(n3)| == 2;
    assert |NatToDecimal(n2)| == 3;
    assert |NatToDecimal(n1)| == 4;
  }

  /** JavaScript `String(x)`. */
  function NumberToString(x: Number): (s: string)
    ensures s != ""
    ensures x.Finite? ==> s != "NaN"
  {
    match x
    case NaN => "NaN"
    case Finite(n) => if n >= 0 then NatToDecimal(n) else "-" + NatToDecimal(-n)
  }

  /** JavaScript `Number(s)` on the strings this system stores: an optional
      minus sign followed by decimal digits, and the empty string, which
      JavaScript reads as 0; every other string reads as NaN. */
  function StringToNumber(s: string): (x: Number)
    ensures s == "" ==> x == Finite(0)
    ensures s != "" && AllDigits(s) ==> x.Finite? && x.n >= 0
    ensures x.Finite? && s != "" && s[0] != '-' ==> AllDigits(s)
  {
    if AllDigits(s) then Finite(DecimalToNat(s))
    else if |s| > 1 && s[0] == '-' && AllDigits(s[1..]) then Finite(-(DecimalToNat(s[1..]) as int))
    else NaN
  }

  /** Reading back what `String` wrote gives the same number, NaN included. */
  lemma NumberRoundTrip(x: Number)
    ensures StringToNumber(NumberToString(x)) == x
  {
    match x
    case NaN =>
      assert !IsDigit("NaN"[0]);
    case Finite(n) =>
      if n >= 0 {
        DecimalRoundTrip(n);
      } else {
        var d := NatToDecimal(-n);
        var s := "-" + d;
        assert !IsDigit(s[0]);
        assert s[1..] == d;
        DecimalRoundTrip(-n);
      }
  }

  /** The default thermostat temperature "68" reads as 68 and back. */
  lemma SixtyEight()
    ensures NumberToString(Finite(68)) == "68"
    ensures StringToNumber("68") == Finite(68)
  {
    assert NatToDecimal(6) == "6";
    assert NatToDecimal(68) == "6" + "8";
    DecimalRoundTrip(68);
  }
}
