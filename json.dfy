/** JavaScript values as far as the query layer looks at them: payloads, variables and truthiness. */
module Json {
  import opened Common

  /** `Number.MAX_SAFE_INTEGER`: up to it, a double holds every integer exactly. */
  const MaxSafeInteger := 0x1F_FFFF_FFFF_FFFF

  /** The integers a JavaScript number holds exactly, and which `JSON.stringify` writes in plain digits. */
  type SafeInteger = n: int | -MaxSafeInteger <= n <= MaxSafeInteger

  /**
   * A JSON-like JavaScript value. Numbers are limited to safe integers. An object's members are a
   * list written out in list order; names are meant to be distinct and not integer-like (`"0"`,
   * `"1"`, …), the only objects on which that order is the one `JSON.stringify` uses.
   */
  datatype Value =
    | Undefined
    | Null
    | Bool(b: bool)
    | Num(n: SafeInteger)
    | Str(s: string)
    | Arr(elems: seq<Value>)
    | Obj(members: seq<(string, Value)>)

  /** JavaScript truthiness: `undefined`, `null`, `false`, `0` and `""` are falsy, everything else is truthy. */
  predicate Truthy(v: Value): (r: bool)
    ensures r <==> v !in {Undefined, Null, Bool(false), Num(0), Str("")}
  {
    match v
    case Undefined => false
    case Null => false
    case Bool(b) => b
    case Num(n) => n != 0
    case Str(s) => s != ""
    case Arr(_) => true
    case Obj(_) => true
  }

  function DigitChar(d: nat): char
    requires d < 10
  {
    ('0' as int + d) as char
  }

  /** Decimal digits of a natural number, most significant first. */
  function Digits(n: nat): (r: string)
    ensures |r| > 0
    ensures forall i :: 0 <= i < |r| ==> '0' <= r[i] <= '9'
    decreases n
  {
    if n < 10 then [DigitChar(n)] else Digits(n / 10) + [DigitChar(n % 10)]
  }

  function IntText(n: int): string
  {
    if n < 0 then "-" + Digits(-n) else Digits(n)
  }

  /** Distinct natural numbers have distinct decimal digits. */
  lemma {:induction false} DigitsInjective(m: nat, n: nat)
    requires Digits(m) == Digits(n)
    ensures m == n
    decreases m
  {
    if m < 10 && n < 10 {
      assert Digits(m)[0] == Digits(n)[0];
    } else if m >= 10 && n >= 10 {
      var dm, dn := Digits(m), Digits(n);
      assert dm[..|dm| - 1] == Digits(m / 10);
      assert dn[..|dn| - 1] == Digits(n / 10);
      DigitsInjective(m / 10, n / 10);
      assert DigitChar(m % 10) == dm[|dm| - 1] == dn[|dn| - 1] == DigitChar(n % 10);
    } else {
      // a single digit never equals two or more
      assert false;
    }
  }

  /** A JSON number starts with a minus sign exactly when it is negative. */
  lemma IntTextSign(n: int)
    ensures |IntText(n)| > 0 && (IntText(n)[0] == '-' <==> n < 0)
  {
    if n >= 0 {
      assert '0' <= Digits(n)[0] <= '9';
    }
  }

  /** Distinct integers serialise to distinct JSON numbers. */
  lemma IntTextInjective(m: int, n: int)
    requires IntText(m) == IntText(n)
    ensures m == n
  {
    IntTextSign(m);
    IntTextSign(n);
    if m < 0 {
      assert Digits(-m) == IntText(m)[1..] == IntText(n)[1..] == Digits(-n);
      DigitsInjective(-m, -n);
    } else {
      DigitsInjective(m, n);
    }
  }

  function HexDigit(d: nat): char
    requires d < 16
  {
    if d < 10 then ('0' as int + d) as char else ('a' as int + d - 10) as char
  }

  /** How JSON.stringify writes one character inside a string literal. */
  function EscapeChar(c: char): string
  {
    if c == '"' then "\\\""
    else if c == '\\' then "\\\\"
    else if c == '\U{8}' then "\\b"
    else if c == '\U{C}' then "\\f"
    else if c == '\n' then "\\n"
    else if c == '\r' then "\\r"
    else if c == '\t' then "\\t"
    else if c < ' ' then "\\u00" + [HexDigit(c as nat / 16), HexDigit(c as nat % 16)]
    else [c]
  }

  function Escape(s: string): string
  {
    if |s| == 0 then "" else EscapeChar(s[0]) + Escape(s[1..])
  }

  /** Characters JSON.stringify writes unchanged. */
  predicate Plain(c: char)
  {
    ' ' <= c && c != '"' && c != '\\'
  }

  lemma {:induction false} EscapePlain(s: string)
    requires forall i :: 0 <= i < |s| ==> Plain(s[i])
    ensures Escape(s) == s
  {
    if |s| > 0 {
      EscapePlain(s[1..]);
    }
  }

  function Quote(s: string): string
  {
    "\"" + Escape(s) + "\""
  }

  /** `JSON.stringify(v)`; `None` is the `undefined` it returns for `undefined`. */
  function Stringify(v: Value): (r: Option<string>)
    ensures r.None? <==> v.Undefined?
    decreases v, 1
  {
    match v
    case Undefined => None
    case Null => Some("null")
    case Bool(b) => Some(if b then "true" else "false")
    case Num(n) => Some(IntText(n))
    case Str(s) => Some(Quote(s))
    case Arr(_) => Some("[" + Join(ElementTexts(v, 0), ",") + "]")
    case Obj(_) => Some("{" + Join(MemberTexts(v, 0), ",") + "}")
  }

  /** Array elements from index `i` on; an `undefined` element is written as `null`. */
  function ElementTexts(v: Value, i: nat): seq<string>
    requires v.Arr? && i <= |v.elems|
    decreases v, 0, |v.elems| - i
  {
    if i == |v.elems| then []
    else
      var t := Stringify(v.elems[i]);
      [if t.Some? then t.value else "null"] + ElementTexts(v, i + 1)
  }

  /** Object members from index `i` on, as `"key":value`; members holding `undefined` are skipped. */
  function MemberTexts(v: Value, i: nat): seq<string>
    requires v.Obj? && i <= |v.members|
    decreases v, 0, |v.members| - i
  {
    if i == |v.members| then []
    else
      var t := Stringify(v.members[i].1);
      if t.Some? then [Quote(v.members[i].0) + ":" + t.value] + MemberTexts(v, i + 1)
      else MemberTexts(v, i + 1)
  }
}
