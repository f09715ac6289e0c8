/** The PHP values the library passes around (request parameters, header
    values, configuration settings, decoded JSON) and the conversions PHP
    applies to them implicitly. */
module PhpValues {
  import opened Wrappers
  import opened Strings
  import opened OrderedMaps

  /** A PHP value. Arrays with string keys are VMap; lists are VList. */
  datatype Value =
    | VNull
    | VBool(b: bool)
    | VInt(i: int)
    | VStr(s: string)
    | VList(items: seq<Value>)
    | VMap(entries: seq<(string, Value)>)

  /** An associative array with string keys. */
  type Dict = d: Entries<Value> | UniqueKeys(d) witness []

  /** PHP's conversion to bool; empty($x) is its negation and array_filter
      keeps exactly the entries for which it holds. */
  predicate Truthy(v: Value)
  {
    match v
    case VNull => false
    case VBool(b) => b
    case VInt(i) => i != 0
    case VStr(s) => s != "" && s != "0"
    case VList(xs) => xs != []
    case VMap(es) => es != []
  }

  /** $v == null with PHP's loose comparison: every falsy value except the
      string "0". */
  predicate LooselyNull(v: Value)
  {
    !Truthy(v) && v != VStr("0")
  }

  predicate IsArray(v: Value)
  {
    v.VList? || v.VMap?
  }

  /** PHP's conversion to string, as string interpolation applies it. */
  function StrOf(v: Value): string
  {
    match v
    case VNull => ""
    case VBool(b) => if b then "1" else ""
    case VInt(i) => IntToDec(i)
    case VStr(s) => s
    case VList(_) => "Array"
    case VMap(_) => "Array"
  }

  /** $d[$k]: the stored value, or null when the key is not set. */
  function Lookup(d: Dict, k: string): (v: Value)
    ensures k !in Keys(d) ==> v == VNull
    ensures k in Keys(d) ==> Find(d, k) == Some(v)
  {
    match Find(d, k)
    case None => VNull
    case Some(x) => x
  }

  /** array_filter on an associative array: the truthy entries, in order. */
  function FilterTruthy(d: Entries<Value>): (r: Entries<Value>)
    ensures forall i :: 0 <= i < |r| ==> Truthy(r[i].1)
    ensures forall k :: k in Keys(r) ==> k in Keys(d)
    ensures UniqueKeys(d) ==> UniqueKeys(r)
    ensures UniqueKeys(d) ==> forall k ::
      Find(r, k) == if Find(d, k).Some? && Truthy(Find(d, k).value) then Find(d, k) else None
  {
    if d == [] then []
    else
      var t := FilterTruthy(d[1..]);
      if Truthy(d[0].1) then
        var r := [d[0]] + t;
        assert r[1..] == t;
        r
      else t
  }

  /** array_filter keeps the survivors in input order: filtering two
      arrays one after the other gives the filtered halves one after the
      other. */
  lemma {:induction false} FilterTruthyAppend(a: Entries<Value>, b: Entries<Value>)
    ensures FilterTruthy(a + b) == FilterTruthy(a) + FilterTruthy(b)
  {
    if a == [] {
      assert a + b == b;
    } else {
      assert (a + b)[0] == a[0];
      assert (a + b)[1..] == a[1..] + b;
      FilterTruthyAppend(a[1..], b);
    }
  }

  /** array_filter leaves nothing exactly when every value is falsy. */
  lemma {:induction false} FilterTruthyEmpty(d: Entries<Value>)
    ensures FilterTruthy(d) == [] <==> forall i :: 0 <= i < |d| ==> !Truthy(d[i].1)
  {
    if d != [] {
      FilterTruthyEmpty(d[1..]);
      assert forall i :: 1 <= i < |d| ==> d[i] == d[1..][i - 1];
    }
  }

  /** The library functions the code calls but whose implementation is not
      part of this model: base64_encode (section 4 of RFC 4648), json_encode,
      json_decode (None when json_last_error() reports a failure),
      http_build_query, and hash_hmac('sha256', data, key) as lower-case hex
      (RFC 2104 over the SHA-256 of FIPS 180-4). */
  datatype Codecs = Codecs(
    base64Encode: string -> string,
    jsonEncode: Value -> string,
    jsonDecode: string -> Option<Value>,
    buildQuery: Value -> string,
    hmacSha256Hex: (string, string) -> string)
}
