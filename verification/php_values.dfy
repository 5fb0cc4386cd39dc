/** The slice of PHP's runtime the client relies on: the values `json_decode($s, true)`
    produces, PHP truthiness, array-key lookup with `isset` / `??`, `rtrim` with a single
    character, and ASCII case-insensitive `stripos`. */
module PhpValues {
  import opened Wrappers

  /** One byte of a PHP string (HTTP bodies are byte strings). */
  newtype Byte = b: int | 0 <= b < 256

  /** PHP array keys are integers or strings; a decoded JSON list has keys 0, 1, ... */
  datatype Key = IntKey(n: int) | StrKey(s: string)

  /** A value as `json_decode($body, true)` returns it. JSON objects and lists both become
      ordered PHP arrays. `Null` is both the literal `null` and the decoder's failure value. */
  datatype Value =
    | Null
    | Bool(b: bool)
    | Int(i: int)
    | Float(f: real)
    | Str(s: string)
    | Arr(entries: seq<Entry>)

  datatype Entry = Entry(key: Key, val: Value)

  /** PHP's conversion to bool: `null`, `false`, `0`, `0.0`, `""`, `"0"` and `[]` are false,
      every other value is true. */
  predicate Truthy(v: Value)
    ensures Truthy(v) <==> v !in {Null, Bool(false), Int(0), Float(0.0), Str(""), Str("0"), Arr([])}
  {
    match v
    case Null => false
    case Bool(b) => b
    case Int(i) => i != 0
    case Float(f) => f != 0.0
    case Str(s) => s != "" && s != "0"
    case Arr(es) => |es| > 0
  }

  /** Truthiness of a `?string` parameter: only null, `""` and `"0"` are false. */
  predicate TruthyString(o: Option<string>)
    ensures TruthyString(o) <==> o !in {None, Some(""), Some("0")}
  {
    o.Some? && Truthy(Str(o.value))
  }

  /** No key occurs twice; `json_decode` always produces arrays of this shape. */
  predicate UniqueKeys(es: seq<Entry>) {
    forall i, j :: 0 <= i < j < |es| ==> es[i].key != es[j].key
  }

  /** The value stored under `k` in an array: the first entry carrying that key. */
  function FindKey(es: seq<Entry>, k: Key): (r: Option<Value>)
    ensures r.None? <==> forall i :: 0 <= i < |es| ==> es[i].key != k
    ensures r.Some? ==> exists i :: 0 <= i < |es| && es[i] == Entry(k, r.value)
                                    && forall j :: 0 <= j < i ==> es[j].key != k
  {
    if |es| == 0 then None
    else if es[0].key == k then Some(es[0].val)
    else
      var r := FindKey(es[1..], k);
      assert forall i :: 1 <= i < |es| ==> es[i] == es[1..][i - 1];
      r
  }

  /** `$v[k]` read through `isset` / `??`: present only for an array holding a non-null
      value under `k`. Indexing a scalar this way yields nothing. */
  function Field(v: Value, name: string): (r: Option<Value>)
    ensures r.Some? ==> v.Arr? && r.value != Null
    ensures r.Some? ==> exists i :: 0 <= i < |v.entries| && v.entries[i] == Entry(StrKey(name), r.value)
    ensures v.Arr? && (forall i :: 0 <= i < |v.entries| ==> v.entries[i].key != StrKey(name)) ==> r.None?
  {
    if v.Arr? then
      match FindKey(v.entries, StrKey(name))
      case Some(x) => if x == Null then None else Some(x)
      case None => None
    else None
  }

  /** `isset($v[name])`. */
  predicate Isset(v: Value, name: string) {
    Field(v, name).Some?
  }

  /** `$v[name] ?? d`. */
  function Coalesce(v: Value, name: string, d: Value): Value {
    Field(v, name).GetOr(d)
  }

  /** Under unique keys, `isset` holds exactly when some entry carries `name` with a
      non-null value. */
  lemma IssetExactly(v: Value, name: string)
    requires v.Arr? && UniqueKeys(v.entries)
    ensures Isset(v, name) <==> exists i :: 0 <= i < |v.entries| && v.entries[i].key == StrKey(name)
                                          && v.entries[i].val != Null
  {
  }

  /** The values a `foreach` over `v` visits, in order; a scalar visits nothing. */
  function Elements(v: Value): (r: seq<Value>)
    ensures v.Arr? ==> |r| == |v.entries| && forall i :: 0 <= i < |r| ==> r[i] == v.entries[i].val
    ensures !v.Arr? ==> r == []
  {
    if v.Arr? then seq(|v.entries|, i requires 0 <= i < |v.entries| => v.entries[i].val) else []
  }

  // ---------------------------------------------------------------------------
  // rtrim($s, c)

  /** `rtrim(s, c)` for a one-character list: `s` without its trailing run of `c`. */
  function TrimTrailing(s: string, c: char): (r: string)
    ensures r <= s
    ensures |r| == 0 || r[|r| - 1] != c
    ensures forall i :: |r| <= i < |s| ==> s[i] == c
  {
    if |s| > 0 && s[|s| - 1] == c then TrimTrailing(s[..|s| - 1], c) else s
  }

  /** The trim result is the only split of `s` into a part that does not end in `c`
      followed by a run of `c`. */
  lemma {:induction false} TrimTrailingUnique(p: string, q: string, c: char)
    requires |p| == 0 || p[|p| - 1] != c
    requires forall i :: 0 <= i < |q| ==> q[i] == c
    ensures TrimTrailing(p + q, c) == p
    decreases |q|
  {
    if |q| == 0 {
      assert p + q == p;
    } else {
      var q' := q[..|q| - 1];
      assert (p + q)[..|p + q| - 1] == p + q';
      TrimTrailingUnique(p, q', c);
    }
  }

  // ---------------------------------------------------------------------------
  // stripos($haystack, $needle)

  /** ASCII lower-casing, the case folding `stripos` applies. */
  function Lower(ch: char): char {
    if 'A' <= ch <= 'Z' then (ch as int + 32) as char else ch
  }

  /** `needle` occurs in `hay` at offset `i`, ignoring ASCII case. */
  predicate MatchesAt(hay: string, needle: string, i: nat)
    requires i + |needle| <= |hay|
  {
    forall j :: 0 <= j < |needle| ==> Lower(hay[i + j]) == Lower(needle[j])
  }

  /** `needle` occurs somewhere in `hay`, ignoring ASCII case. */
  predicate ContainsIgnoringCase(hay: string, needle: string) {
    exists i: nat :: i + |needle| <= |hay| && MatchesAt(hay, needle, i)
  }

  /** `stripos(hay, needle)`: the first offset of a case-insensitive match, or none
      (PHP's `false`). */
  method StrIPos(hay: string, needle: string) returns (r: Option<nat>)
    ensures r.Some? ==> r.value + |needle| <= |hay| && MatchesAt(hay, needle, r.value)
    ensures r.Some? ==> forall k: nat :: k < r.value ==> !MatchesAt(hay, needle, k)
    ensures r.None? <==> !ContainsIgnoringCase(hay, needle)
  {
    var i: nat := 0;
    while i + |needle| <= |hay|
      invariant forall k: nat :: k < i && k + |needle| <= |hay| ==> !MatchesAt(hay, needle, k)
      decreases |hay| - i
    {
      if MatchesAt(hay, needle, i) {
        return Some(i);
      }
      i := i + 1;
    }
    return None;
  }
}
