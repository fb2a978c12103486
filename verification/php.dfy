/** PHP values as the registrar module handles them -- the scalars and the
    ordered arrays that decoded JSON, request payloads and result maps are made
    of -- and the few PHP built-ins the module relies on. */
module Php {

  datatype Option<+T> = None | Some(value: T)

  /** An array key: PHP array keys are integers or strings. */
  datatype Key = IKey(n: int) | SKey(s: string)

  /** A PHP value. An array is an ordered list of key/value entries whose keys
      are distinct; floating-point numbers and objects are not modelled. */
  datatype Value = Null | Bool(b: bool) | Int(i: int) | Str(s: string) | Arr(entries: seq<(Key, Value)>)

  type Entries = seq<(Key, Value)>

  // ---------------------------------------------------------------------
  // Truthiness

  /** PHP's `empty()`: null, false, 0, "", "0" and the empty array. A value is
      truthy (passes `if ($v)`) exactly when it is not empty. */
  predicate Empty(v: Value) {
    match v
    case Null => true
    case Bool(b) => !b
    case Int(i) => i == 0
    case Str(s) => s == "" || s == "0"
    case Arr(es) => es == []
  }

  predicate Truthy(v: Value) {
    !Empty(v)
  }

  // ---------------------------------------------------------------------
  // Arrays

  function KeysOf(es: Entries): set<Key> {
    if es == [] then {} else {es[0].0} + KeysOf(es[1..])
  }

  /** `$a[$k]`: the value stored under `k`, or null when there is none. */
  function Lookup(es: Entries, k: Key): (v: Value)
    ensures k !in KeysOf(es) ==> v == Null
  {
    if es == [] then Null else if es[0].0 == k then es[0].1 else Lookup(es[1..], k)
  }

  /** `$v['name']` on any value: null unless `v` is an array holding the key. */
  function Get(v: Value, name: string): Value {
    if v.Arr? then Lookup(v.entries, SKey(name)) else Null
  }

  /** `isset($v['name'])`. */
  predicate IsSet(v: Value, name: string) {
    Get(v, name) != Null
  }

  /** `$a[$k] = $x`: an existing key keeps its position, a new one is appended. */
  function Put(es: Entries, k: Key, x: Value): (r: Entries)
    ensures Lookup(r, k) == x
    ensures forall k' :: k' != k ==> Lookup(r, k') == Lookup(es, k')
    ensures KeysOf(r) == KeysOf(es) + {k}
    ensures k !in KeysOf(es) ==> r == es + [(k, x)]
    ensures k in KeysOf(es) ==> |r| == |es| && forall i :: 0 <= i < |es| ==> r[i].0 == es[i].0
  {
    if es == [] then [(k, x)]
    else if es[0].0 == k then [(k, x)] + es[1..]
    else [es[0]] + Put(es[1..], k, x)
  }

  /** The keys after `$a[$k] = $x`. */
  lemma PutKeys(es: Entries, k: Key, x: Value)
    ensures KeysOf(Put(es, k, x)) == KeysOf(es) + {k}
  {
  }

  /** `unset($a[$k])`: the other entries keep their order. */
  function Remove(es: Entries, k: Key): (r: Entries)
    ensures KeysOf(r) == KeysOf(es) - {k}
    ensures forall k' :: k' != k ==> Lookup(r, k') == Lookup(es, k')
    ensures |r| <= |es|
  {
    if es == [] then []
    else if es[0].0 == k then Remove(es[1..], k)
    else [es[0]] + Remove(es[1..], k)
  }

  /** The values `foreach` visits, in order; `foreach` over a non-array visits nothing. */
  function ValuesOf(v: Value): (r: seq<Value>)
    ensures |r| == (if v.Arr? then |v.entries| else 0)
    ensures v.Arr? ==> forall i :: 0 <= i < |r| ==> r[i] == v.entries[i].1
  {
    if v.Arr? then seq(|v.entries|, i requires 0 <= i < |v.entries| => v.entries[i].1) else []
  }

  /** A PHP list `[x0, x1, ...]`: keys 0, 1, ... */
  function ListOf(xs: seq<Value>): Value {
    Arr(seq(|xs|, i requires 0 <= i < |xs| => (IKey(i), xs[i])))
  }

  /** The key a value becomes when used as an array key. Numeric strings, which
      PHP turns into integer keys, are not converted here. */
  function KeyOf(v: Value): Key {
    match v
    case Null => SKey("")
    case Bool(b) => IKey(if b then 1 else 0)
    case Int(i) => IKey(i)
    case Str(s) => SKey(s)
    case Arr(_) => SKey("")
  }

  // ---------------------------------------------------------------------
  // Strings

  function Digit(d: nat): char
    requires d < 10
  {
    ('0' as int + d) as char
  }

  /** The decimal digits of `n`, most significant first. */
  function NatToString(n: nat): (r: string)
    ensures r != []
    ensures n < 10 <==> |r| == 1
    decreases n
  {
    if n < 10 then [Digit(n)] else NatToString(n / 10) + [Digit(n % 10)]
  }

  function IntToString(i: int): string {
    if i < 0 then "-" + NatToString(-i) else NatToString(i)
  }

  function KeyText(k: Key): string {
    match k
    case IKey(n) => IntToString(n)
    case SKey(s) => s
  }

  /** String conversion, as in `"{$v}"`. */
  function StrVal(v: Value): string {
    match v
    case Null => ""
    case Bool(b) => if b then "1" else ""
    case Int(i) => IntToString(i)
    case Str(s) => s
    case Arr(_) => "Array"
  }

  /** The characters `trim` and `ltrim` strip by default. */
  const Whitespace: set<char> := {' ', '\t', '\n', '\r', '\0', '\U{B}'}

  /** `ltrim($s, $chars)`: drops the longest prefix made of `cs`. */
  function LTrim(s: string, cs: set<char>): (r: string)
    ensures |r| <= |s| && r == s[|s| - |r|..]
    ensures r == [] || r[0] !in cs
    ensures forall i :: 0 <= i < |s| - |r| ==> s[i] in cs
  {
    if s != [] && s[0] in cs then LTrim(s[1..], cs) else s
  }

  /** `rtrim($s, $chars)`: drops the longest suffix made of `cs`. */
  function RTrim(s: string, cs: set<char>): (r: string)
    ensures |r| <= |s| && r == s[..|r|]
    ensures r == [] || r[|r| - 1] !in cs
    ensures forall i :: |r| <= i < |s| ==> s[i] in cs
  {
    if s != [] && s[|s| - 1] in cs then RTrim(s[..|s| - 1], cs) else s
  }

  /** `trim($s, $chars)`. */
  function Trim(s: string, cs: set<char>): string {
    RTrim(LTrim(s, cs), cs)
  }

  function UpperChar(c: char): char {
    if 'a' <= c <= 'z' then (c as int - 32) as char else c
  }

  function LowerChar(c: char): char {
    if 'A' <= c <= 'Z' then (c as int + 32) as char else c
  }

  /** `strtoupper`: ASCII letters only. */
  function Upper(s: string): string {
    seq(|s|, i requires 0 <= i < |s| => UpperChar(s[i]))
  }


  /** `explode($sep, $s, 2)`: the text before the first `sep` and, when `sep`
      occurs, the text after it. */
  function SplitFirst(s: string, sep: char): (r: (string, Option<string>))
    ensures r.1.None? <==> sep !in s
    ensures r.1.None? ==> r.0 == s
    ensures r.1.Some? ==> s == r.0 + [sep] + r.1.value && sep !in r.0
  {
    if s == [] then ("", None)
    else if s[0] == sep then ("", Some(s[1..]))
    else
      var t := SplitFirst(s[1..], sep);
      ([s[0]] + t.0, t.1)
  }

  /** The split is at the first separator. */
  lemma {:induction false} SplitFirstAt(head: string, sep: char, tail: string)
    requires sep !in head
    ensures SplitFirst(head + [sep] + tail, sep) == (head, Some(tail))
  {
    var s := head + [sep] + tail;
    if head == [] {
      assert s[1..] == tail;
    } else {
      assert s[1..] == head[1..] + [sep] + tail;
      SplitFirstAt(head[1..], sep, tail);
      assert [head[0]] + head[1..] == head;
    }
  }

  predicate StartsWith(s: string, prefix: string) {
    |prefix| <= |s| && s[..|prefix|] == prefix
  }

  /** `strpos($hay, $needle) !== false`; the empty needle is found (PHP 8). */
  predicate Contains(hay: string, needle: string)
    decreases |hay|
  {
    StartsWith(hay, needle) || (hay != [] && Contains(hay[1..], needle))
  }

  /** `s` starts with `prefix` once `strtolower` has been applied to both. */
  predicate StartsWithCI(s: string, prefix: string) {
    prefix == [] || (s != [] && LowerChar(s[0]) == LowerChar(prefix[0]) && StartsWithCI(s[1..], prefix[1..]))
  }

  /** A case-insensitive occurrence of `needle` in `hay` at position `i`. */
  predicate OccursCIAt(hay: string, needle: string, i: int) {
    0 <= i <= |hay| - |needle| && StartsWithCI(hay[i..], needle)
  }

  /** `str_ireplace($needle, '', $s)`: every case-insensitive occurrence of a
      non-empty needle removed, scanning left to right. */
  function RemoveCI(s: string, needle: string): (r: string)
    ensures |r| <= |s|
    decreases |s|
  {
    if needle == [] || |s| < |needle| then s
    else if StartsWithCI(s, needle) then RemoveCI(s[|needle|..], needle)
    else [s[0]] + RemoveCI(s[1..], needle)
  }

  // ---------------------------------------------------------------------
  // Lemmas

  /** `needle` occurs in `hay` starting at position `i`. */
  predicate OccursAt(hay: string, needle: string, i: int) {
    0 <= i <= |hay| - |needle| && hay[i..i + |needle|] == needle
  }

  /** `strpos` finds the needle exactly when it occurs at some position. */
  lemma {:induction false} ContainsIff(hay: string, needle: string)
    ensures Contains(hay, needle) <==> exists i :: OccursAt(hay, needle, i)
  {
    if Contains(hay, needle) {
      if StartsWith(hay, needle) {
        assert OccursAt(hay, needle, 0);
      } else {
        ContainsIff(hay[1..], needle);
        var i :| OccursAt(hay[1..], needle, i);
        assert hay[i + 1..i + 1 + |needle|] == hay[1..][i..i + |needle|];
        assert OccursAt(hay, needle, i + 1);
      }
    }
    forall i | OccursAt(hay, needle, i)
      ensures Contains(hay, needle)
    {
      OccursAtContains(hay, needle, i);
    }
  }

  lemma {:induction false} OccursAtContains(hay: string, needle: string, i: int)
    requires OccursAt(hay, needle, i)
    ensures Contains(hay, needle)
    decreases i
  {
    if i == 0 {
      assert hay[..|needle|] == hay[0..0 + |needle|];
    } else {
      var tail := hay[1..];
      assert tail[i - 1..i - 1 + |needle|] == hay[i..i + |needle|];
      OccursAtContains(tail, needle, i - 1);
    }
  }

  /** The first character put back in front of the rest of a prefix. */
  lemma PrependFront(s: string, i: nat, rest: string)
    requires 0 < i <= |s|
    ensures [s[0]] + (s[1..][..i - 1] + rest) == s[..i] + rest
  {
    assert [s[0]] + s[1..][..i - 1] == s[..i];
  }

  /** A suffix of `s[1..]` is the suffix of `s` one place further on. */
  lemma SuffixShift(s: string, k: nat)
    requires 0 < k <= |s|
    ensures s[1..][k - 1..] == s[k..]
  {
  }

  /** The step of `RemoveCIFirst` past a first character that starts no
      occurrence. */
  lemma RemoveCIKeepsFront(s: string, needle: string, i: nat)
    requires needle != [] && 0 < i <= |s| - |needle|
    requires !OccursCIAt(s, needle, 0)
    requires RemoveCI(s[1..], needle) == s[1..][..i - 1] + RemoveCI(s[1..][i - 1 + |needle|..], needle)
    ensures RemoveCI(s, needle) == s[..i] + RemoveCI(s[i + |needle|..], needle)
  {
    SuffixShift(s, i + |needle|);
    PrependFront(s, i, RemoveCI(s[i + |needle|..], needle));
  }

  /** No occurrence before `i` in `s` means none before `i - 1` in `s[1..]`. */
  lemma NoEarlierOccurrence(s: string, needle: string, i: nat)
    requires 0 < i <= |s|
    requires forall j :: 0 <= j < i ==> !OccursCIAt(s, needle, j)
    ensures forall j :: 0 <= j < i - 1 ==> !OccursCIAt(s[1..], needle, j)
  {
    forall j | 0 <= j < i - 1
      ensures !OccursCIAt(s[1..], needle, j)
    {
      OccursCIShift(s, needle, j);
    }
  }

  /** An occurrence one place into `s` is an occurrence in `s[1..]`. */
  lemma OccursCIShift(s: string, needle: string, i: int)
    requires s != [] && 0 <= i
    ensures OccursCIAt(s[1..], needle, i) <==> OccursCIAt(s, needle, i + 1)
  {
    if i <= |s| - 1 {
      assert s[1..][i..] == s[i + 1..];
    }
  }

  /** `str_ireplace` leaves a string without a case-insensitive occurrence of
      the needle, and any string for the empty needle, as it is. */
  lemma {:induction false} RemoveCIAbsent(s: string, needle: string)
    requires needle == [] || forall i :: !OccursCIAt(s, needle, i)
    ensures RemoveCI(s, needle) == s
    decreases |s|
  {
    if needle != [] && |s| >= |needle| {
      assert s[0..] == s && !OccursCIAt(s, needle, 0);
      forall i | OccursCIAt(s[1..], needle, i)
        ensures false
      {
        OccursCIShift(s, needle, i);
      }
      RemoveCIAbsent(s[1..], needle);
      assert [s[0]] + s[1..] == s;
    }
  }

  /** `str_ireplace` removes the leftmost case-insensitive occurrence and goes
      on with the text after it; with `RemoveCIAbsent` this fixes the result
      for every input. */
  lemma {:induction false} RemoveCIFirst(s: string, needle: string, i: nat)
    requires needle != [] && OccursCIAt(s, needle, i)
    requires forall j :: 0 <= j < i ==> !OccursCIAt(s, needle, j)
    ensures RemoveCI(s, needle) == s[..i] + RemoveCI(s[i + |needle|..], needle)
    decreases i
  {
    if i == 0 {
      var rest := RemoveCI(s[|needle|..], needle);
      assert s[..0] + rest == rest;
    } else {
      OccursCIShift(s, needle, i - 1);
      NoEarlierOccurrence(s, needle, i);
      RemoveCIFirst(s[1..], needle, i - 1);
      RemoveCIKeepsFront(s, needle, i);
    }
  }

  /** A case-sensitive prefix is a case-insensitive one. */
  lemma {:induction false} StartsWithIsCI(s: string, prefix: string)
    requires StartsWith(s, prefix)
    ensures StartsWithCI(s, prefix)
    decreases |prefix|
  {
    if prefix != [] {
      assert s[1..][..|prefix| - 1] == prefix[1..];
      StartsWithIsCI(s[1..], prefix[1..]);
    }
  }

  /** A needle `strpos` finds is removed by `str_ireplace`: the result is
      shorter by at least the needle's length. */
  lemma {:induction false} RemoveCIShrinks(s: string, needle: string)
    requires needle != [] && Contains(s, needle)
    ensures |RemoveCI(s, needle)| <= |s| - |needle|
    decreases |s|
  {
    if |s| >= |needle| && StartsWithCI(s, needle) {
    } else {
      if StartsWith(s, needle) {
        StartsWithIsCI(s, needle);
      }
      RemoveCIShrinks(s[1..], needle);
    }
  }

  /** One pass only: removing an occurrence can join text into a new one,
      which stays. */
  lemma RemoveCISinglePass()
    ensures RemoveCI("aAbB", "ab") == "aB"
    ensures OccursCIAt("aB", "ab", 0)
  {
    assert !StartsWithCI("aAbB", "ab") by {
      assert "aAbB"[1..] == "AbB" && "ab"[1..] == "b";
    }
    assert StartsWithCI("AbB", "ab") by {
      assert "AbB"[1..] == "bB" && "ab"[1..] == "b";
      assert "bB"[1..] == "B" && "b"[1..] == "";
    }
    assert "aB"[0..] == "aB";
    assert RemoveCI("AbB", "ab") == RemoveCI("B", "ab");
  }

  /** Different numbers are written differently. */
  lemma {:induction false} NatToStringInjective(a: nat, b: nat)
    requires NatToString(a) == NatToString(b)
    ensures a == b
    decreases a
  {
    if a >= 10 && b >= 10 {
      var sa, sb := NatToString(a), NatToString(b);
      assert sa[..|sa| - 1] == NatToString(a / 10);
      assert sb[..|sb| - 1] == NatToString(b / 10);
      NatToStringInjective(a / 10, b / 10);
      assert Digit(a % 10) == sa[|sa| - 1] == sb[|sb| - 1] == Digit(b % 10);
    } else if a < 10 && b < 10 {
      assert Digit(a) == NatToString(a)[0] == NatToString(b)[0] == Digit(b);
    }
  }

  /** A key no entry carries is looked up as null. */
  lemma {:induction false} LookupMissing(es: Entries, k: Key)
    requires forall j :: 0 <= j < |es| ==> es[j].0 != k
    ensures Lookup(es, k) == Null
  {
    if es != [] {
      LookupMissing(es[1..], k);
    }
  }

  /** The value stored under a key is found by looking it up. */
  lemma {:induction false} LookupFindsEntry(es: Entries, i: nat)
    requires i < |es|
    requires forall j :: 0 <= j < i ==> es[j].0 != es[i].0
    ensures Lookup(es, es[i].0) == es[i].1
  {
    if i > 0 {
      LookupFindsEntry(es[1..], i - 1);
    }
  }
}
