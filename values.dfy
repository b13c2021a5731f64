/** Decoded JSON / BSON values: what the document store holds and what the
    food database answers with, together with the bits of Python's value
    semantics the handlers rely on (truthiness, `or`, `dict.get`). */
module Values {

  /** An identifier assigned by the document store to a new document. */
  datatype ObjectId = ObjectId(n: nat)

  /** A decoded value. `Obj` is a JSON object / Python dict. */
  datatype Value =
    | Null
    | Bool(b: bool)
    | Int(i: int)
    | Num(r: real)
    | Str(s: string)
    | Oid(id: ObjectId)
    | Arr(items: seq<Value>)
    | Obj(fields: map<string, Value>)

  /** A document: the string-keyed record of one stored entity. */
  type Document = map<string, Value>

  /** Python truthiness, `bool(v)`: null, false, zero and empty containers are falsy. */
  predicate Truthy(v: Value) {
    match v
    case Null => false
    case Bool(b) => b
    case Int(i) => i != 0
    case Num(r) => r != 0.0
    case Str(s) => s != ""
    case Oid(_) => true
    case Arr(items) => items != []
    case Obj(fields) => fields != map[]
  }

  /** Python's `a or b`. */
  function Or(a: Value, b: Value): Value {
    if Truthy(a) then a else b
  }

  /** Python's `d.get(k, default)` on a dict. */
  function Get(d: Document, k: string, default: Value): Value {
    if k in d then d[k] else default
  }

  predicate IsHexDigit(c: char) {
    '0' <= c <= '9' || 'a' <= c <= 'f'
  }

  function HexDigit(d: nat): (c: char)
    requires d < 16
    ensures IsHexDigit(c)
  {
    if d < 10 then ('0' as int + d) as char else ('a' as int + d - 10) as char
  }

  /** The low `width` hexadecimal digits of `n`, most significant first. */
  function HexDigits(n: nat, width: nat): (r: string)
    ensures |r| == width
    ensures forall i :: 0 <= i < width ==> IsHexDigit(r[i])
  {
    if width == 0 then "" else HexDigits(n / 16, width - 1) + [HexDigit(n % 16)]
  }

  function Pow16(w: nat): (p: nat)
    ensures p >= 1
  {
    if w == 0 then 1 else 16 * Pow16(w - 1)
  }

  lemma HexDigitInjective(d: nat, e: nat)
    requires d < 16 && e < 16 && HexDigit(d) == HexDigit(e)
    ensures d == e
  {
  }

  /** Splitting off the last hexadecimal digit of `m` modulo `16 * p`. */
  lemma ModLastDigit(m: nat, p: nat)
    requires p >= 1
    ensures m % (16 * p) == 16 * ((m / 16) % p) + m % 16
  {
    var q, t := m / 16, m % 16;
    var a, b := q / p, q % p;
    assert m == (16 * p) * a + (16 * b + t) by {
      assert m == 16 * q + t;
      assert q == p * a + b;
      assert 16 * q == 16 * (p * a) + 16 * b;
      assert 16 * (p * a) == (16 * p) * a;
    }
    assert 16 * b + t < 16 * p by {
      assert b <= p - 1;
      assert 16 * b <= 16 * (p - 1);
    }
    ModOfSum(m, 16 * p, a, 16 * b + t);
  }

  /** The remainder is the part below the divisor. */
  lemma ModOfSum(m: nat, d: nat, a: nat, t: nat)
    requires d >= 1 && t < d && m == d * a + t
    ensures m % d == t
  {
    var q, r := m / d, m % d;
    assert d * a + t == d * q + r;
    if a > q {
      assert d * a == d * q + d * (a - q);
      MulAtLeast(d, a - q);
      assert false;
    } else if a < q {
      assert d * q == d * a + d * (q - a);
      MulAtLeast(d, q - a);
      assert false;
    }
  }

  lemma MulAtLeast(d: nat, k: nat)
    requires k >= 1
    ensures d * k >= d
  {
    assert d * k == d + d * (k - 1);
  }

  /** The digits determine the number modulo `16^width`. */
  lemma {:induction false} HexDigitsInjective(m: nat, n: nat, width: nat)
    requires HexDigits(m, width) == HexDigits(n, width)
    ensures m % Pow16(width) == n % Pow16(width)
  {
    if width > 0 {
      var hm, hn := HexDigits(m, width), HexDigits(n, width);
      assert hm[width - 1] == HexDigit(m % 16) && hn[width - 1] == HexDigit(n % 16);
      HexDigitInjective(m % 16, n % 16);
      assert hm[..width - 1] == HexDigits(m / 16, width - 1);
      assert hn[..width - 1] == HexDigits(n / 16, width - 1);
      HexDigitsInjective(m / 16, n / 16, width - 1);
      ModLastDigit(m, Pow16(width - 1));
      ModLastDigit(n, Pow16(width - 1));
    }
  }

  /** Below `16^width`, different numbers have different digits. */
  lemma HexDigitsDistinct(m: nat, n: nat, width: nat)
    requires m < Pow16(width) && n < Pow16(width) && m != n
    ensures HexDigits(m, width) != HexDigits(n, width)
  {
    if HexDigits(m, width) == HexDigits(n, width) {
      HexDigitsInjective(m, n, width);
      ModOfSum(m, Pow16(width), 0, m);
      ModOfSum(n, Pow16(width), 0, n);
    }
  }

  /** The 12-byte range of identifiers. */
  const IdBound: nat := Pow16(24)

  /** Two identifiers of the 12-byte range have the same text only when they are equal. */
  lemma ObjectIdHexInjective(a: ObjectId, b: ObjectId)
    requires a.n < IdBound && b.n < IdBound
    ensures ObjectIdHex(a) == ObjectIdHex(b) <==> a == b
  {
    if a != b {
      HexDigitsDistinct(a.n, b.n, 24);
    }
  }

  /** Consecutive identifiers differ in their last hexadecimal digit. */
  lemma NextObjectIdHexDiffers(n: nat)
    ensures ObjectIdHex(ObjectId(n)) != ObjectIdHex(ObjectId(n + 1))
  {
    var h, h' := ObjectIdHex(ObjectId(n)), ObjectIdHex(ObjectId(n + 1));
    assert h[23] == HexDigit(n % 16);
    assert h'[23] == HexDigit((n + 1) % 16);
    if h == h' {
      HexDigitInjective(n % 16, (n + 1) % 16);
    }
  }

  /** `str(oid)`: the 24 lower-case hexadecimal digits of the 12-byte identifier. */
  function ObjectIdHex(id: ObjectId): (r: string)
    ensures |r| == 24
    ensures forall i :: 0 <= i < |r| ==> IsHexDigit(r[i])
  {
    HexDigits(id.n, 24)
  }
}
