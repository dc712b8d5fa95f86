/** Turning an approved value into the sixteen-bit register word a native target takes. */
module NativeEncoding {
  import opened Common
  import opened Measurement

  const WORD_MAX: int := 65535

  datatype ValueType = Boolean | Double | Int64

  /** A requested value; floats are finite. */
  datatype Value = Flag(on: bool) | Whole(n: int) | Decimal(x: real) | Other

  datatype Target = Target(valueType: ValueType, scale: nat, minimum: real, maximum: real)

  predicate Fits(t: ValueType, v: Value) {
    match t
    case Boolean => v.Flag?
    case Int64 => v.Whole?
    case Double => v.Whole? || v.Decimal?
  }

  function Numeric(v: Value): real {
    match v
    case Flag(on) => if on then 1.0 else 0.0
    case Whole(n) => n as real
    case Decimal(x) => x
    case Other => 0.0
  }

  function Size(x: real): real {
    if x < 0.0 then -x else x
  }

  function Larger(a: real, b: real): real {
    if a > b then a else b
  }

  /** Nearness up to a billionth of the larger, or a millionth, whichever is more. */
  predicate Close(a: real, b: real) {
    Size(a - b) <= Larger(0.000000001 * Larger(Size(a), Size(b)), 0.000001)
  }

  /** The register word a scaled value is rounded to, if it is close to one that fits. */
  function WordFor(scaled: real): Option<int> {
    var raw := HalfEven(scaled);
    if !Close(scaled, raw as real) || !(0 <= raw <= WORD_MAX) then None else Some(raw)
  }

  function EncodeScaled(t: Target, v: Value, scaled: real): Result<int> {
    if !Fits(t.valueType, v) then Failure("unexpected type")
    else if !(t.minimum <= Numeric(v) <= t.maximum) then Failure("value outside native target range")
    else
      match WordFor(scaled)
      case None => Failure("value cannot be represented by target encoding")
      case Some(raw) => Success(raw)
  }

  function Scaled(amount: real, scale: nat): real {
    amount * scale as real
  }

  function EncodeValue(t: Target, v: Value): Result<int> {
    EncodeScaled(t, v, Scaled(Numeric(v), t.scale))
  }

  lemma ScaledEncodes(t: Target, v: Value, amount: real)
    requires Numeric(v) == amount
    ensures EncodeValue(t, v) == EncodeScaled(t, v, Scaled(amount, t.scale))
  {
  }

  lemma CloseIsWithinHalf(a: real, k: int)
    requires Close(a, k as real) && 0 <= k <= WORD_MAX
    ensures -0.5 < a - k as real < 0.5
  {
  }

  lemma WordIsExact(scaled: real, raw: int)
    ensures WordFor(scaled) == Some(raw) <==> 0 <= raw <= WORD_MAX && Close(scaled, raw as real)
  {
    if 0 <= raw <= WORD_MAX && Close(scaled, raw as real) {
      CloseIsWithinHalf(scaled, raw);
      HalfEvenCatches(scaled, raw);
    }
  }

  lemma ScaledWord(t: Target, v: Value, scaled: real, raw: int)
    ensures EncodeScaled(t, v, scaled) == Success(raw) <==>
            && Fits(t.valueType, v) && t.minimum <= Numeric(v) <= t.maximum
            && 0 <= raw <= WORD_MAX && Close(scaled, raw as real)
  {
    WordIsExact(scaled, raw);
  }

  /** A number is sent as this word exactly when its target takes numbers of its kind, it lies in the
      range and comes, times the scale, close to the word; no two words qualify. */
  lemma NumbersEncodeExactly(t: Target, v: Value, amount: real, raw: int)
    requires v == Decimal(amount) || (v.Whole? && v.n as real == amount)
    ensures EncodeValue(t, v) == Success(raw) <==>
            && (t.valueType == Double || (t.valueType == Int64 && v.Whole?))
            && t.minimum <= amount <= t.maximum
            && 0 <= raw <= 65535 && Close(Scaled(amount, t.scale), raw as real)
  {
    ScaledEncodes(t, v, amount);
    ScaledWord(t, v, Scaled(amount, t.scale), raw);
  }

  /** Closeness to a register word: certain up to a millionth, excluded from seven hundred-thousandths. */
  lemma ClosenessIsTight(a: real, word: int)
    requires 0 <= word <= 65535
    ensures -0.000001 <= a - word as real <= 0.000001 ==> Close(a, word as real)
    ensures Close(a, word as real) ==> -0.00007 < a - word as real < 0.00007
  {
  }

  lemma CloseWholesAreEqual(a: int, word: int)
    requires 0 <= word <= 65535
    ensures Close(a as real, word as real) <==> a == word
  {
    ClosenessIsTight(a as real, word);
  }

  lemma {:induction false} ProductIsWhole(n: int, scale: nat)
    ensures Scaled(n as real, scale) == (n * scale) as real
  {
    if scale > 0 {
      ProductIsWhole(n, scale - 1);
      assert n * scale == n * (scale - 1) + n;
      assert n as real * scale as real == n as real * (scale - 1) as real + n as real;
    }
  }

  lemma WholeWord(t: Target, n: int, product: int, raw: int)
    ensures EncodeScaled(t, Whole(n), product as real) == Success(raw) <==>
            t.valueType != Boolean && t.minimum <= n as real <= t.maximum && raw == product && 0 <= raw <= 65535
  {
    ScaledWord(t, Whole(n), product as real, raw);
    if 0 <= raw <= 65535 {
      CloseWholesAreEqual(product, raw);
    }
  }

  /** A whole number is sent as itself times the scale, and not at all where that is no word. */
  lemma WholesEncodeExactly(t: Target, n: int, raw: int)
    ensures EncodeValue(t, Whole(n)) == Success(raw) <==>
            t.valueType != Boolean && t.minimum <= n as real <= t.maximum && raw == n * t.scale && 0 <= raw <= 65535
  {
    ProductIsWhole(n, t.scale);
    ScaledEncodes(t, Whole(n), n as real);
    WholeWord(t, n, n * t.scale, raw);
  }

  /** A switch is sent as the scale for on and as zero for off, to a Boolean target whose range has it. */
  lemma FlagsEncodeExactly(t: Target, on: bool, raw: int)
    ensures EncodeValue(t, Flag(on)) == Success(raw) <==>
            && t.valueType == Boolean && 0 <= raw <= 65535
            && (if on then t.minimum <= 1.0 <= t.maximum && raw == t.scale else t.minimum <= 0.0 <= t.maximum && raw == 0)
  {
    ScaledWord(t, Flag(on), if on then t.scale as real else 0.0, raw);
    if 0 <= raw <= 65535 {
      CloseWholesAreEqual(if on then t.scale else 0, raw);
    }
  }

  /** As configured, with the range from off to on at scale one: on goes out as one, off as zero. */
  lemma SwitchesGoOutAsBits(t: Target, on: bool)
    requires t.valueType == Boolean && t.scale == 1 && t.minimum == 0.0 && t.maximum == 1.0
    ensures EncodeValue(t, Flag(on)) == Success(if on then 1 else 0)
  {
    FlagsEncodeExactly(t, on, if on then 1 else 0);
  }

  /** A bottle number goes out as itself. */
  lemma BottlesEncodeAsThemselves(t: Target, bottle: nat)
    requires t.valueType == Int64 && t.scale == 1 && t.minimum <= bottle as real <= t.maximum && bottle <= WORD_MAX
    ensures EncodeValue(t, Whole(bottle)) == Success(bottle)
  {
    WholesEncodeExactly(t, bottle, bottle);
  }
}
