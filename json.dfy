/**
 * Decoded JSON values as Python's json module hands them to the watcher, with
 * the few Python operations the watcher applies to them: dict.get, tuple(),
 * truthiness, str.strip() and str() of an integer.
 */
module Json {
  import opened Wrappers

  /** A decoded JSON value. An object keeps its fields in document order. */
  datatype Json =
    | JNull
    | JBool(b: bool)
    | JNumber(n: int)
    | JString(s: string)
    | JArray(items: seq<Json>)
    | JObject(fields: seq<(string, Json)>)

  /**
   * `d.get(key)` on the dict that json.loads builds from `fields`: when a key
   * occurs more than once the last occurrence wins.
   */
  function Lookup(fields: seq<(string, Json)>, key: string): (r: Option<Json>)
    ensures r.None? <==> forall i :: 0 <= i < |fields| ==> fields[i].0 != key
    ensures r.Some? ==>
      exists i :: 0 <= i < |fields| && fields[i] == (key, r.value) &&
        forall j :: i < j < |fields| ==> fields[j].0 != key
    decreases |fields|
  {
    if |fields| == 0 then None
    else if fields[|fields| - 1].0 == key then Some(fields[|fields| - 1].1)
    else
      var r := Lookup(fields[..|fields| - 1], key);
      assert forall i :: 0 <= i < |fields| - 1 ==> fields[..|fields| - 1][i] == fields[i];
      r
  }

  /** The keys of that dict in iteration order: distinct, in order of first occurrence. */
  function Keys(fields: seq<(string, Json)>): (ks: seq<string>)
    ensures forall k :: k in ks <==> exists i :: 0 <= i < |fields| && fields[i].0 == k
    ensures forall i, j :: 0 <= i < j < |ks| ==> ks[i] != ks[j]
    decreases |fields|
  {
    if |fields| == 0 then []
    else
      var front := fields[..|fields| - 1];
      var ks := Keys(front);
      assert forall i :: 0 <= i < |front| ==> front[i] == fields[i];
      if fields[|fields| - 1].0 in ks then ks else ks + [fields[|fields| - 1].0]
  }

  /** Python truthiness of a decoded value. */
  predicate Truthy(v: Json) {
    match v
    case JNull => false
    case JBool(b) => b
    case JNumber(n) => n != 0
    case JString(s) => s != []
    case JArray(items) => items != []
    case JObject(fields) => fields != []
  }

  /**
   * `tuple(x)` where `x` is the result of a dict.get (None when the key is
   * missing): None stands for the TypeError raised on None, booleans and numbers.
   * A string gives its characters, an array its items, an object its keys.
   */
  function TupleOf(x: Option<Json>): (r: Option<seq<Json>>)
    ensures r.None? <==> (x.None? || x.value.JNull? || x.value.JBool? || x.value.JNumber?)
    ensures x.Some? && x.value.JArray? ==> r == Some(x.value.items)
    ensures x.Some? && x.value.JString? ==>
      r.Some? && |r.value| == |x.value.s| &&
      forall i :: 0 <= i < |r.value| ==> r.value[i] == JString([x.value.s[i]])
  {
    match x
    case None => None
    case Some(JNull) => None
    case Some(JBool(_)) => None
    case Some(JNumber(_)) => None
    case Some(JString(s)) => Some(seq(|s|, i requires 0 <= i < |s| => JString([s[i]])))
    case Some(JArray(items)) => Some(items)
    case Some(JObject(fields)) =>
      var ks := Keys(fields);
      Some(seq(|ks|, i requires 0 <= i < |ks| => JString(ks[i])))
  }

  /** `c.isspace()` for one character: the characters Python's str.strip() removes. */
  predicate IsSpace(c: char) {
    ('\t' <= c <= '\r') || ('\U{1C}' <= c <= ' ') || c == '\U{85}' || c == '\U{A0}' ||
    c == '\U{1680}' || ('\U{2000}' <= c <= '\U{200A}') || c == '\U{2028}' || c == '\U{2029}' ||
    c == '\U{202F}' || c == '\U{205F}' || c == '\U{3000}'
  }

  /** `not s.strip()`: the string is empty or whitespace only. */
  predicate IsBlank(s: string) {
    forall i :: 0 <= i < |s| ==> IsSpace(s[i])
  }

  /** `s.lstrip()` */
  function TrimLeft(s: string): (r: string)
    ensures |r| <= |s| && r == s[|s| - |r|..]
    ensures r == [] || !IsSpace(r[0])
    ensures forall i :: 0 <= i < |s| - |r| ==> IsSpace(s[i])
    decreases |s|
  {
    if s != [] && IsSpace(s[0]) then TrimLeft(s[1..]) else s
  }

  /** `s.rstrip()` */
  function TrimRight(s: string): (r: string)
    ensures |r| <= |s| && r == s[..|r|]
    ensures r == [] || !IsSpace(r[|r| - 1])
    ensures forall i :: |r| <= i < |s| ==> IsSpace(s[i])
    decreases |s|
  {
    if s != [] && IsSpace(s[|s| - 1]) then TrimRight(s[..|s| - 1]) else s
  }

  /**
   * `s.strip()`: the longest slice of `s` that neither starts nor ends with
   * whitespace, everything cut off on either side being whitespace.
   */
  function Strip(s: string): (r: string)
    ensures exists a, b ::
      (0 <= a <= b <= |s| && r == s[a..b] &&
       (forall i :: 0 <= i < a ==> IsSpace(s[i])) &&
       (forall i :: b <= i < |s| ==> IsSpace(s[i])))
    ensures r == [] || (!IsSpace(r[0]) && !IsSpace(r[|r| - 1]))
  {
    var l := TrimLeft(s);
    var r := TrimRight(l);
    StripSlice(s, |s| - |l|, l, r);
    r
  }

  /** The right trim `r` of the suffix `l` of `s`, as a slice of `s`. */
  lemma StripSlice(s: string, a: nat, l: string, r: string)
    requires a <= |s| && l == s[a..] && |r| <= |l| && r == l[..|r|]
    requires forall i :: 0 <= i < a ==> IsSpace(s[i])
    requires forall i :: |r| <= i < |l| ==> IsSpace(l[i])
    ensures exists a', b' ::
      (0 <= a' <= b' <= |s| && r == s[a'..b'] &&
       (forall i :: 0 <= i < a' ==> IsSpace(s[i])) &&
       (forall i :: b' <= i < |s| ==> IsSpace(s[i])))
  {
    forall i | a + |r| <= i < |s|
      ensures IsSpace(s[i])
    {
      assert s[i] == l[i - a];
    }
    assert r == s[a..a + |r|];
  }

  /** The decimal digit for `d`. */
  function DigitChar(d: nat): char
    requires d < 10
  {
    ('0' as int + d) as char
  }

  /** `str(n)` for a natural number: decimal digits without a leading zero. */
  function NatToString(n: nat): (s: string)
    ensures |s| >= 1 && (|s| == 1 || s[0] != '0')
    ensures forall i :: 0 <= i < |s| ==> '0' <= s[i] <= '9'
    decreases n
  {
    if n < 10 then [DigitChar(n)] else NatToString(n / 10) + [DigitChar(n % 10)]
  }

  /** `str(n)` for an integer: a minus sign before the digits of a negative number. */
  function IntToString(n: int): (s: string)
    ensures n < 0 <==> (s != [] && s[0] == '-')
    ensures var d := if n < 0 then s[1..] else s;
      && |d| >= 1 && (|d| == 1 || d[0] != '0')
      && (forall i :: 0 <= i < |d| ==> '0' <= d[i] <= '9')
  {
    if n < 0 then
      var s := "-" + NatToString(-n);
      assert s[1..] == NatToString(-n);
      s
    else
      NatToString(n)
  }

  /** The value of a string of decimal digits: the inverse of NatToString. */
  function DecimalValue(s: string): nat
    requires forall i :: 0 <= i < |s| ==> '0' <= s[i] <= '9'
    decreases |s|
  {
    if s == [] then 0 else 10 * DecimalValue(s[..|s| - 1]) + (s[|s| - 1] - '0') as nat
  }

  lemma {:induction false} NatToStringRoundTrip(n: nat)
    ensures DecimalValue(NatToString(n)) == n
    decreases n
  {
    if n >= 10 {
      var q, r := n / 10, n % 10;
      NatToStringRoundTrip(q);
      var s := NatToString(n);
      assert s == NatToString(q) + [DigitChar(r)];
      assert s[..|s| - 1] == NatToString(q) && s[|s| - 1] == DigitChar(r);
      assert DecimalValue(s) == 10 * q + r;
    }
  }

  /** The digits of `str(n)` denote the absolute value of `n`. */
  lemma IntToStringValue(n: int)
    ensures var s := IntToString(n);
      var d := if n < 0 then s[1..] else s;
      DecimalValue(d) == (if n < 0 then -n else n)
  {
    if n < 0 {
      NatToStringRoundTrip(-n);
      assert IntToString(n)[1..] == NatToString(-n);
    } else {
      NatToStringRoundTrip(n);
    }
  }

  lemma NatToStringInjective(m: nat, n: nat)
    requires NatToString(m) == NatToString(n)
    ensures m == n
  {
    NatToStringRoundTrip(m);
    NatToStringRoundTrip(n);
  }

  /** Distinct integers print differently, so a logged status code identifies the code. */
  lemma IntToStringInjective(m: int, n: int)
    requires IntToString(m) == IntToString(n)
    ensures m == n
  {
    if m < 0 && n < 0 {
      var s := IntToString(m);
      assert NatToString(-m) == s[1..] == NatToString(-n);
      NatToStringInjective(-m, -n);
    } else if m >= 0 && n >= 0 {
      NatToStringInjective(m, n);
    }
  }
}
