/** Shared vocabulary of the model: optional values, results, and the few
    string operations the Python code relies on (`in` on strings,
    `str.lower()`, `sep.join(...)`). */
module Common {

  datatype Option<+T> = None | Some(value: T)

  datatype Result<+T, +E> = Ok(value: T) | Err(error: E)

  /** Bytes as the services exchange them (images, video, audio). */
  type Bytes = seq<bv8>

  /** `needle` occurs in `haystack` starting at index `i`. */
  predicate OccursAt(haystack: string, needle: string, i: int)
  {
    0 <= i <= |haystack| - |needle| && haystack[i..i + |needle|] == needle
  }

  /** Python's `needle in haystack` on strings: a contiguous occurrence. */
  predicate Contains(haystack: string, needle: string)
  {
    exists i | 0 <= i <= |haystack| - |needle| :: OccursAt(haystack, needle, i)
  }

  /** `s.startswith(p)` */
  predicate StartsWith(s: string, p: string)
  {
    |p| <= |s| && s[..|p|] == p
  }

  lemma ContainsAt(haystack: string, needle: string, i: int)
    requires 0 <= i <= |haystack| - |needle|
    requires haystack[i..i + |needle|] == needle
    ensures Contains(haystack, needle)
  {
    assert OccursAt(haystack, needle, i);
  }

  /** Any part of a concatenation occurs in it. */
  lemma {:induction false} ContainsMiddle(a: string, b: string, c: string)
    ensures Contains(a + b + c, b)
  {
    var s := a + b + c;
    assert s[|a|..|a| + |b|] == b;
    ContainsAt(s, b, |a|);
  }

  /** Lower-casing of one character: ASCII letters only. */
  function LowerChar(c: char): (r: char)
    ensures 'A' <= c <= 'Z' ==> 'a' <= r <= 'z'
    ensures !('A' <= c <= 'Z') ==> r == c
  {
    if 'A' <= c <= 'Z' then (c as int + 32) as char else c
  }

  /** `str.lower()`, restricted to ASCII letters. */
  function Lower(s: string): (r: string)
    ensures |r| == |s|
    ensures forall i :: 0 <= i < |s| ==> r[i] == LowerChar(s[i])
  {
    if s == [] then [] else [LowerChar(s[0])] + Lower(s[1..])
  }

  /** `sep.join(xs)` */
  function Join(sep: string, xs: seq<string>): string
  {
    if |xs| == 0 then ""
    else if |xs| == 1 then xs[0]
    else xs[0] + sep + Join(sep, xs[1..])
  }

  /** Every joined element occurs in the joined string. */
  lemma {:induction false} JoinContainsEach(sep: string, xs: seq<string>, k: int)
    requires 0 <= k < |xs|
    ensures Contains(Join(sep, xs), xs[k])
  {
    if |xs| == 1 {
      ContainsMiddle("", xs[0], "");
      assert "" + xs[0] + "" == xs[0];
    } else if k == 0 {
      ContainsMiddle("", xs[0], sep + Join(sep, xs[1..]));
      assert "" + xs[0] + (sep + Join(sep, xs[1..])) == Join(sep, xs);
    } else {
      JoinContainsEach(sep, xs[1..], k - 1);
      assert xs[1..][k - 1] == xs[k];
      ContainsInside(xs[0] + sep, Join(sep, xs[1..]), "", xs[k]);
      assert xs[0] + sep + Join(sep, xs[1..]) + "" == Join(sep, xs);
    }
  }

  /** Joining one more element appends the separator and that element. */
  lemma {:induction false} JoinSnoc(sep: string, xs: seq<string>, x: string)
    ensures Join(sep, xs + [x]) == if |xs| == 0 then x else Join(sep, xs) + sep + x
  {
    if |xs| == 0 {
      assert xs + [x] == [x];
    } else if |xs| == 1 {
      assert xs + [x] == [xs[0], x];
      assert (xs + [x])[1..] == [x];
    } else {
      assert (xs + [x])[1..] == xs[1..] + [x];
      JoinSnoc(sep, xs[1..], x);
    }
  }

  /** Whatever occurs in a part of a concatenation occurs in the whole. */
  lemma {:induction false} ContainsInside(a: string, b: string, c: string, x: string)
    requires Contains(b, x)
    ensures Contains(a + b + c, x)
  {
    var i :| 0 <= i <= |b| - |x| && OccursAt(b, x, i);
    assert b[i..i + |x|] == x;
    var s := a + b + c;
    assert s[|a| + i..|a| + i + |x|] == b[i..i + |x|];
    ContainsAt(s, x, |a| + i);
  }

  /** The values of the ids a mapping knows, in the order of the ids; the
      others are skipped (`[m[k] for k in ids if k in m]`). */
  function Resolve<T>(m: map<string, T>, ids: seq<string>): (r: seq<T>)
    ensures |r| <= |ids|
    ensures forall j :: 0 <= j < |r| ==> exists k :: k in ids && k in m && r[j] == m[k]
    ensures r == [] <==> forall k :: k in ids ==> k !in m
  {
    if ids == [] then []
    else
      var rest := Resolve(m, ids[..|ids| - 1]);
      var k := ids[|ids| - 1];
      assert forall k' :: k' in ids[..|ids| - 1] ==> k' in ids;
      if k in m then rest + [m[k]] else rest
  }

  /** Updating a key the ids do not mention changes nothing resolved. */
  lemma {:induction false} ResolveIgnoresOtherKeys<T>(m: map<string, T>, k: string, v: T, ids: seq<string>)
    requires k !in ids
    ensures Resolve(m[k := v], ids) == Resolve(m, ids)
    decreases |ids|
  {
    if ids != [] {
      assert forall k' :: k' in ids[..|ids| - 1] ==> k' in ids;
      ResolveIgnoresOtherKeys(m, k, v, ids[..|ids| - 1]);
    }
  }

  /** The values of the ids, in the order of the ids. */
  function ValuesInOrder<T>(m: map<string, T>, order: seq<string>): (r: seq<T>)
    requires forall id :: id in order ==> id in m
    ensures |r| == |order|
    ensures forall i :: 0 <= i < |order| ==> r[i] == m[order[i]]
  {
    seq(|order|, i requires 0 <= i < |order| => m[order[i]])
  }
}
