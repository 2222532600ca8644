/**
 * The PHP values the application's functions build and test: scalars and
 * ordered arrays. An array is a sequence of key/value pairs in insertion
 * order; assigning to an existing key replaces its value in place, and
 * `$a[] = v` appends under the next free integer key.
 */
module Php {
  import opened Common

  datatype Key = IKey(i: int) | SKey(s: string)

  datatype Val = Null | Bool(b: bool) | Int(i: int) | Str(s: string) | Arr(entries: seq<(Key, Val)>)

  type PArray = seq<(Key, Val)>

  /** PHP's boolean conversion, as `if ($v)` and `!$v` apply it. */
  predicate Truthy(v: Val) {
    match v
    case Null => false
    case Bool(b) => b
    case Int(i) => i != 0
    case Str(s) => s != "" && s != "0"
    case Arr(a) => |a| > 0
  }

  /** `empty($s)` for a string: the empty string and "0". */
  predicate EmptyStr(s: string) {
    s == "" || s == "0"
  }

  /** The number of bytes UTF-8 needs for one character. */
  function Utf8Width(c: char): (n: nat)
    ensures 1 <= n <= 4
    ensures n == 1 <==> c as int < 0x80
  {
    if c as int < 0x80 then 1 else if c as int < 0x800 then 2 else if c as int < 0x1_0000 then 3 else 4
  }

  /** `strlen`: PHP strings are bytes, so a text counts the bytes of its UTF-8 encoding. */
  function StrLen(s: string): (n: nat)
    ensures |s| <= n <= 4 * |s|
    ensures (forall i :: 0 <= i < |s| ==> s[i] as int < 0x80) ==> n == |s|
  {
    if |s| == 0 then 0 else StrLen(s[..|s| - 1]) + Utf8Width(s[|s| - 1])
  }

  predicate HasKey(a: PArray, k: Key) {
    exists i :: 0 <= i < |a| && a[i].0 == k
  }

  /** No key occurs twice: every array PHP builds has this shape. */
  predicate DistinctKeys(a: PArray) {
    forall i, j :: 0 <= i < j < |a| ==> a[i].0 != a[j].0
  }

  /** `$a[$k]` when the key is set. */
  function Lookup(a: PArray, k: Key): (r: Option<Val>)
    ensures r.Some? <==> HasKey(a, k)
    ensures r.Some? ==> exists i :: 0 <= i < |a| && a[i] == (k, r.value)
  {
    if |a| == 0 then None
    else if a[0].0 == k then Some(a[0].1)
    else
      var r := Lookup(a[1..], k);
      assert forall i :: 1 <= i < |a| ==> a[1..][i - 1] == a[i];
      if r.Some? then
        assert exists i :: 0 <= i < |a[1..]| && a[1..][i] == (k, r.value);
        r
      else r
  }

  /** `$a[$k] = $v`: an existing key keeps its place, a new one goes last. */
  function Put(a: PArray, k: Key, v: Val): (r: PArray)
    ensures !HasKey(a, k) ==> r == a + [(k, v)]
    ensures |r| == |a| + (if HasKey(a, k) then 0 else 1)
    ensures forall i :: 0 <= i < |a| ==> r[i].0 == a[i].0
  {
    if |a| == 0 then [(k, v)]
    else if a[0].0 == k then [(k, v)] + a[1..]
    else
      assert forall i :: 1 <= i < |a| ==> a[1..][i - 1] == a[i];
      assert HasKey(a, k) <==> HasKey(a[1..], k);
      [a[0]] + Put(a[1..], k, v)
  }

  /** After `$a[$k] = $v`, key k reads v and every other key reads as before. */
  lemma {:induction false} PutLookup(a: PArray, k: Key, v: Val, k': Key)
    ensures Lookup(Put(a, k, v), k) == Some(v)
    ensures k' != k ==> Lookup(Put(a, k, v), k') == Lookup(a, k')
  {
    if |a| > 0 && a[0].0 != k {
      PutLookup(a[1..], k, v, k');
      var r := Put(a, k, v);
      assert r[1..] == Put(a[1..], k, v);
    } else if |a| > 0 {
      var r := Put(a, k, v);
      assert r[1..] == a[1..];
    }
  }

  /** Assignment never creates a second entry for a key. */
  lemma PutDistinct(a: PArray, k: Key, v: Val)
    requires DistinctKeys(a)
    ensures DistinctKeys(Put(a, k, v))
  {
    var r := Put(a, k, v);
    if !HasKey(a, k) {
      forall i, j | 0 <= i < j < |r| ensures r[i].0 != r[j].0 {
        if j == |a| {
          assert r[i].0 == a[i].0;
        }
      }
    }
  }

  /** The key `$a[] = v` uses: one past the largest integer key, and never below 0 (PHP before 8.3). */
  function NextIndex(a: PArray): (n: int)
    ensures n >= 0
    ensures forall i :: 0 <= i < |a| && a[i].0.IKey? ==> a[i].0.i < n
  {
    if |a| == 0 then 0
    else
      var prev := NextIndex(a[..|a| - 1]);
      assert forall i :: 0 <= i < |a| - 1 ==> a[..|a| - 1][i] == a[i];
      if a[|a| - 1].0.IKey? then Max(prev, a[|a| - 1].0.i + 1) else prev
  }

  /** `$a[] = $v`. */
  function Push(a: PArray, v: Val): (r: PArray)
    ensures r == a + [(IKey(NextIndex(a)), v)]
    ensures !HasKey(a, IKey(NextIndex(a)))
    ensures DistinctKeys(a) ==> DistinctKeys(r)
  {
    a + [(IKey(NextIndex(a)), v)]
  }

  /** A list: the keys are 0, 1, 2, ... in order. */
  predicate IsList(a: PArray) {
    forall i :: 0 <= i < |a| ==> a[i].0 == IKey(i)
  }

  /** Pushing onto a list continues it. */
  lemma {:induction false} PushOntoList(a: PArray, v: Val)
    requires IsList(a)
    ensures NextIndex(a) == |a|
    ensures IsList(Push(a, v))
  {
    if |a| > 0 {
      var p := a[..|a| - 1];
      assert IsList(p) by {
        forall i | 0 <= i < |p| ensures p[i].0 == IKey(i) {
          assert p[i] == a[i];
        }
      }
      PushOntoList(p, v);
      assert a[|a| - 1].0 == IKey(|a| - 1);
    }
  }
}
