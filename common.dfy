/** Shared value types and the handful of Python string and list primitives
    that the modelled code relies on: `strip`, `lower`, `in` on strings,
    `startswith`, `str.join`, `filter(None, ...)`, prefix slicing, a stable
    `sort`, lexicographic `str` comparison and `range`-based batching. */
module Common {

  datatype Option<T> = None | Some(value: T)

  datatype Result<T, E> = Ok(value: T) | Err(error: E)

  // ---------------------------------------------------------------------------
  // Characters and whitespace (ASCII subset of Python's str methods)
  // ---------------------------------------------------------------------------

  /** The ASCII characters for which Python's `str.isspace` holds: space,
      tab, line feed, vertical tab, form feed, carriage return and the four
      separators 0x1C to 0x1F. */
  predicate IsSpace(c: char)
  {
    c == ' ' || ('\t' <= c <= '\r') || ('\U{001C}' <= c <= '\U{001F}')
  }

  /** Python's `str.lower` on ASCII letters; every other character is kept. */
  function LowerChar(c: char): (r: char)
    ensures 'A' <= c <= 'Z' ==> r as int == c as int + 32
    ensures !('A' <= c <= 'Z') ==> r == c
  {
    if 'A' <= c <= 'Z' then (c as int + 32) as char else c
  }

  function Lower(s: string): (r: string)
    ensures |r| == |s|
    ensures forall i :: 0 <= i < |s| ==> r[i] == LowerChar(s[i])
  {
    if s == [] then [] else [LowerChar(s[0])] + Lower(s[1..])
  }

  /** `s.lstrip()`: the longest suffix of `s` that does not start with a space. */
  function TrimLeft(s: string): (r: string)
    ensures |r| <= |s| && r == s[|s| - |r|..]
    ensures r == [] || !IsSpace(r[0])
    ensures forall i :: 0 <= i < |s| - |r| ==> IsSpace(s[i])
  {
    if s != [] && IsSpace(s[0]) then TrimLeft(s[1..]) else s
  }

  /** `s.rstrip()`: the longest prefix of `s` that does not end with a space. */
  function TrimRight(s: string): (r: string)
    ensures |r| <= |s| && r == s[..|r|]
    ensures r == [] || !IsSpace(r[|r| - 1])
    ensures forall i :: |r| <= i < |s| ==> IsSpace(s[i])
  {
    if s != [] && IsSpace(s[|s| - 1]) then TrimRight(s[..|s| - 1]) else s
  }

  /** Neither the first nor the last character is a space. */
  predicate NoEdgeSpace(s: string)
  {
    s == [] || (!IsSpace(s[0]) && !IsSpace(s[|s| - 1]))
  }

  /** `s.strip()`: a contiguous slice of `s` with no space at either end,
      obtained by dropping only spaces. */
  function Strip(s: string): (r: string)
    ensures NoEdgeSpace(r)
    ensures |r| <= |s|
  {
    var l := TrimLeft(s);
    var r := TrimRight(l);
    assert r == [] || (!IsSpace(r[0]) && !IsSpace(r[|r| - 1])) by {
      if r != [] { assert r[0] == l[0]; }
    }
    r
  }

  lemma {:induction false} StripOfStripped(s: string)
    requires NoEdgeSpace(s)
    ensures Strip(s) == s
  {
    assert TrimLeft(s) == s;
    assert TrimRight(s) == s;
  }

  /** Every character is a space (this includes the empty string). */
  predicate Blank(s: string)
  {
    forall i :: 0 <= i < |s| ==> IsSpace(s[i])
  }

  /** `s.strip()` is empty exactly when `s` is blank. */
  lemma StripEmpty(s: string)
    ensures Strip(s) == "" <==> Blank(s)
  {
  }

  /** Leading spaces make no difference to `lstrip` and to `strip`. */
  lemma {:induction false} TrimLeftDropBlank(s: string, k: nat)
    requires k <= |s| && Blank(s[..k])
    ensures TrimLeft(s[k..]) == TrimLeft(s)
  {
    if k > 0 {
      assert IsSpace(s[..k][0]);
      assert s[1..][..k - 1] == s[..k][1..];
      assert s[1..][k - 1..] == s[k..];
      TrimLeftDropBlank(s[1..], k - 1);
    }
  }

  lemma StripDropBlank(s: string, k: nat)
    requires k <= |s| && Blank(s[..k])
    ensures Strip(s[k..]) == Strip(s)
  {
    TrimLeftDropBlank(s, k);
  }

  // ---------------------------------------------------------------------------
  // Substrings and prefixes
  // ---------------------------------------------------------------------------

  /** Python's `k in s` for strings. */
  predicate IsSubstring(k: string, s: string)
  {
    StartsWith(s, k) || (s != [] && IsSubstring(k, s[1..]))
  }

  predicate StartsWith(s: string, p: string)
  {
    |p| <= |s| && s[..|p|] == p
  }

  predicate EndsWith(s: string, p: string)
  {
    |p| <= |s| && s[|s| - |p|..] == p
  }

  /** `s[:n]` for a non-negative `n`. */
  function Take<T>(s: seq<T>, n: nat): (r: seq<T>)
    ensures |r| == if n < |s| then n else |s|
    ensures r == s[..|r|]
  {
    if n < |s| then s[..n] else s
  }

  /** The length of `s[:n]` for a sequence of length `len`. */
  function PrefixLength(len: nat, n: int): (k: nat)
    ensures k <= len
  {
    if n >= 0 then (if n < len then n else len) else if len + n > 0 then len + n else 0
  }

  /** `s[:n]` for any integer `n`: a negative bound counts from the end. */
  function PyPrefix<T>(s: seq<T>, n: int): (r: seq<T>)
    ensures n >= 0 ==> |r| == (if n < |s| then n else |s|)
    ensures n < 0 ==> |r| == (if |s| + n > 0 then |s| + n else 0)
    ensures |r| == PrefixLength(|s|, n)
    ensures r == s[..|r|]
  {
    if n >= 0 then Take(s, n) else if |s| + n > 0 then s[..|s| + n] else []
  }

  /** `str(n)` for a natural number: its decimal digits. */
  function NatToString(n: nat): (r: string)
    ensures |r| >= 1
    ensures forall i :: 0 <= i < |r| ==> '0' <= r[i] <= '9'
  {
    if n < 10 then [DigitChar(n)] else NatToString(n / 10) + [DigitChar(n % 10)]
  }

  function DigitChar(d: nat): (c: char)
    requires d < 10
    ensures '0' <= c <= '9'
  {
    ('0' as int + d) as char
  }

  /** `int(s)` for a string of decimal digits. */
  function ParseNat(s: string): nat
  {
    if s == [] then 0
    else ParseNat(s[..|s| - 1]) * 10 + (if '0' <= s[|s| - 1] <= '9' then s[|s| - 1] as int - '0' as int else 0)
  }

  /** Reading back the decimal digits gives the number. */
  lemma {:induction false} ParseNatToString(n: nat)
    ensures ParseNat(NatToString(n)) == n
  {
    if n >= 10 {
      var r := NatToString(n);
      assert r[..|r| - 1] == NatToString(n / 10);
      ParseNatToString(n / 10);
    }
  }

  /** The string made of `n` copies of `c` (`c * n`). */
  function Repeat(c: char, n: nat): (r: string)
    ensures |r| == n
    ensures forall i :: 0 <= i < n ==> r[i] == c
  {
    if n == 0 then "" else [c] + Repeat(c, n - 1)
  }

  // ---------------------------------------------------------------------------
  // str.join and filter(None, ...)
  // ---------------------------------------------------------------------------

  /** Python's `sep.join(xs)`. */
  function Join(sep: string, xs: seq<string>): string
  {
    if |xs| == 0 then "" else if |xs| == 1 then xs[0] else xs[0] + sep + Join(sep, xs[1..])
  }

  lemma {:induction false} JoinAppend(sep: string, xs: seq<string>, y: string)
    ensures Join(sep, xs + [y]) == if xs == [] then y else Join(sep, xs) + sep + y
  {
    if |xs| > 1 {
      assert (xs + [y])[1..] == xs[1..] + [y];
      JoinAppend(sep, xs[1..], y);
    } else if |xs| == 1 {
      assert (xs + [y])[1..] == [y];
    }
  }

  lemma {:induction false} JoinConcat(sep: string, xs: seq<string>, ys: seq<string>)
    requires xs != [] && ys != []
    ensures Join(sep, xs + ys) == Join(sep, xs) + sep + Join(sep, ys)
  {
    if |xs| == 1 {
      assert (xs + ys)[1..] == ys;
    } else {
      assert (xs + ys)[1..] == xs[1..] + ys;
      JoinConcat(sep, xs[1..], ys);
    }
  }

  lemma {:induction false} JoinFirst(sep: string, xs: seq<string>)
    requires xs != []
    ensures StartsWith(Join(sep, xs), xs[0])
  {
  }

  lemma {:induction false} JoinLast(sep: string, xs: seq<string>)
    requires xs != []
    ensures EndsWith(Join(sep, xs), xs[|xs| - 1])
  {
    if |xs| > 1 {
      JoinLast(sep, xs[1..]);
      var j := Join(sep, xs[1..]);
      assert (xs[0] + sep + j)[|xs[0] + sep + j| - |xs[|xs| - 1]|..] == j[|j| - |xs[|xs| - 1]|..];
    }
  }

  /** A join of non-empty parts is empty exactly when there are no parts. */
  lemma {:induction false} JoinEmpty(sep: string, xs: seq<string>)
    requires forall i :: 0 <= i < |xs| ==> xs[i] != ""
    ensures Join(sep, xs) == "" <==> xs == []
  {
    if xs != [] {
      JoinFirst(sep, xs);
    }
  }

  /** Python's `list(filter(None, xs))` on strings: the non-empty ones, in order. */
  function NonEmpty(xs: seq<string>): (r: seq<string>)
    ensures |r| <= |xs|
    ensures forall i :: 0 <= i < |r| ==> r[i] != "" && r[i] in xs
    ensures forall i :: 0 <= i < |xs| && xs[i] != "" ==> xs[i] in r
  {
    if xs == [] then []
    else if xs[0] == "" then NonEmpty(xs[1..])
    else [xs[0]] + NonEmpty(xs[1..])
  }

  lemma {:induction false} NonEmptyAppend(xs: seq<string>, ys: seq<string>)
    ensures NonEmpty(xs + ys) == NonEmpty(xs) + NonEmpty(ys)
  {
    if xs != [] {
      assert (xs + ys)[1..] == xs[1..] + ys;
      NonEmptyAppend(xs[1..], ys);
    } else {
      assert xs + ys == ys;
    }
  }

  // ---------------------------------------------------------------------------
  // Sequences without repetitions, element removal, flattening
  // ---------------------------------------------------------------------------

  predicate NoDuplicates<T(==)>(s: seq<T>)
  {
    forall i, j :: 0 <= i < j < |s| ==> s[i] != s[j]
  }

  /** The elements of a sequence, as a set. */
  function Elements<T(!new)>(s: seq<T>): (r: set<T>)
    ensures forall x :: x in r <==> x in s
  {
    set x | x in s
  }

  lemma {:induction false} ElementsCard<T(!new)>(s: seq<T>)
    requires NoDuplicates(s)
    ensures |Elements(s)| == |s|
  {
    if s != [] {
      assert NoDuplicates(s[1..]) by {
        forall i, j | 0 <= i < j < |s[1..]| ensures s[1..][i] != s[1..][j] {
          assert s[1..][i] == s[i + 1] && s[1..][j] == s[j + 1];
        }
      }
      ElementsCard(s[1..]);
      assert s[0] !in s[1..];
      assert Elements(s) == Elements(s[1..]) + {s[0]};
    }
  }

  lemma NoDuplicatesTail<T>(s: seq<T>)
    requires s != [] && NoDuplicates(s)
    ensures NoDuplicates(s[1..]) && s[0] !in s[1..]
  {
    forall i, j | 0 <= i < j < |s[1..]| ensures s[1..][i] != s[1..][j] {
      assert s[1..][i] == s[i + 1] && s[1..][j] == s[j + 1];
    }
  }

  /** A sequence has no repetitions exactly when every element occurs at most
      once in its multiset. */
  lemma {:induction false} NoDuplicatesCount<T>(s: seq<T>)
    ensures NoDuplicates(s) <==> forall x :: multiset(s)[x] <= 1
  {
    if s != [] {
      var a, rest := s[0], s[1..];
      NoDuplicatesCount(rest);
      assert s == [a] + rest;
      assert forall x :: multiset(s)[x] == multiset(rest)[x] + (if x == a then 1 else 0);
      if NoDuplicates(s) {
        NoDuplicatesTail(s);
      } else if forall x :: multiset(s)[x] <= 1 {
        assert multiset(rest)[a] == 0;
        assert forall x :: multiset(rest)[x] <= 1 by {
          forall x ensures multiset(rest)[x] <= 1 {
            assert multiset(s)[x] <= 1;
          }
        }
        forall i, j | 0 <= i < j < |s| ensures s[i] != s[j] {
          if i == 0 {
            assert s[j] == rest[j - 1];
          } else {
            assert s[i] == rest[i - 1] && s[j] == rest[j - 1];
          }
        }
      }
    }
  }

  /** A permutation of a sequence without repetitions has none either. */
  lemma NoDuplicatesPermutation<T>(s: seq<T>, t: seq<T>)
    requires NoDuplicates(s) && multiset(s) == multiset(t)
    ensures NoDuplicates(t)
  {
    NoDuplicatesCount(s);
    NoDuplicatesCount(t);
  }

  /** Python's `list(s)` for a set: its elements in some order. */
  method SetToList<T(!new)>(s: set<T>) returns (xs: seq<T>)
    ensures Elements(xs) == s && NoDuplicates(xs) && |xs| == |s|
  {
    xs := [];
    var rest := s;
    while rest != {}
      invariant rest <= s && Elements(xs) == s - rest && NoDuplicates(xs)
      invariant |xs| + |rest| == |s|
      decreases |rest|
    {
      var x :| x in rest;
      xs := xs + [x];
      rest := rest - {x};
    }
  }

  /** Python's `list.remove(x)` when `x` occurs: drops the first occurrence. */
  function RemoveFirst<T(==)>(s: seq<T>, x: T): (r: seq<T>)
    ensures x in s ==> |r| == |s| - 1
    ensures x !in s ==> r == s
    ensures forall y :: y in r ==> y in s
    ensures forall y :: y in s && y != x ==> y in r
  {
    if s == [] then []
    else if s[0] == x then s[1..]
    else [s[0]] + RemoveFirst(s[1..], x)
  }

  /** Removing the first occurrence, at `i`, closes the gap it leaves: the
      other elements keep their order. */
  lemma {:induction false} RemoveFirstAt<T>(s: seq<T>, x: T, i: nat)
    requires i < |s| && s[i] == x && x !in s[..i]
    ensures RemoveFirst(s, x) == s[..i] + s[i + 1..]
  {
    if i > 0 {
      assert s[0] == s[..i][0];
      assert s[1..][..i - 1] == s[1..i];
      assert x !in s[1..][..i - 1];
      RemoveFirstAt(s[1..], x, i - 1);
      assert s[..i] + s[i + 1..] == [s[0]] + (s[1..][..i - 1] + s[1..][i..]);
    }
  }

  /** Without duplicates, removing `s[i]` removes position `i`. */
  lemma RemoveFirstUnique<T>(s: seq<T>, i: nat)
    requires NoDuplicates(s) && i < |s|
    ensures RemoveFirst(s, s[i]) == s[..i] + s[i + 1..]
  {
    forall j | 0 <= j < i ensures s[..i][j] != s[i] {
      assert s[..i][j] == s[j];
    }
    RemoveFirstAt(s, s[i], i);
  }

  lemma {:induction false} RemoveFirstNoDuplicates<T>(s: seq<T>, x: T)
    requires NoDuplicates(s)
    ensures NoDuplicates(RemoveFirst(s, x))
    ensures x !in RemoveFirst(s, x)
  {
    if s != [] && s[0] != x {
      assert NoDuplicates(s[1..]) by {
        forall i, j | 0 <= i < j < |s[1..]| ensures s[1..][i] != s[1..][j] {
          assert s[1..][i] == s[i + 1] && s[1..][j] == s[j + 1];
        }
      }
      RemoveFirstNoDuplicates(s[1..], x);
      var t := RemoveFirst(s[1..], x);
      assert s[0] !in s[1..];
      assert s[0] !in t;
      var r := [s[0]] + t;
      forall i, j | 0 <= i < j < |r| ensures r[i] != r[j] {
        if i == 0 {
          assert r[j] in t;
        } else {
          assert r[i] == t[i - 1] && r[j] == t[j - 1];
        }
      }
    }
  }

  function Flatten<T>(ss: seq<seq<T>>): seq<T>
  {
    if ss == [] then [] else ss[0] + Flatten(ss[1..])
  }

  lemma {:induction false} FlattenAppend<T>(ss: seq<seq<T>>, b: seq<T>)
    ensures Flatten(ss + [b]) == Flatten(ss) + b
  {
    if ss == [] {
      assert Flatten([b]) == b + Flatten([]);
    } else {
      assert (ss + [b])[1..] == ss[1..] + [b];
      FlattenAppend(ss[1..], b);
    }
  }

  /** The elements of `s` on which `p` holds, in order. */
  function Filter<T>(s: seq<T>, p: T -> bool): (r: seq<T>)
    ensures |r| <= |s|
    ensures forall i :: 0 <= i < |r| ==> r[i] in s && p(r[i])
    ensures forall i :: 0 <= i < |s| && p(s[i]) ==> s[i] in r
  {
    if s == [] then [] else (if p(s[0]) then [s[0]] else []) + Filter(s[1..], p)
  }

  lemma {:induction false} FilterAppend<T>(s: seq<T>, t: seq<T>, p: T -> bool)
    ensures Filter(s + t, p) == Filter(s, p) + Filter(t, p)
  {
    if s == [] {
      assert s + t == t;
    } else {
      assert (s + t)[1..] == s[1..] + t;
      FilterAppend(s[1..], t, p);
    }
  }

  // ---------------------------------------------------------------------------
  // Insertion-ordered dictionaries (Python `dict` with its key order)
  // ---------------------------------------------------------------------------

  /** Keys in insertion order, each once, with their current values. */
  type Assoc<K, V> = seq<(K, V)>

  function AssocKeys<K, V>(m: Assoc<K, V>): (r: seq<K>)
    ensures |r| == |m|
    ensures forall i :: 0 <= i < |m| ==> r[i] == m[i].0
  {
    if m == [] then [] else [m[0].0] + AssocKeys(m[1..])
  }

  function AssocGet<K(==), V>(m: Assoc<K, V>, k: K): (r: Option<V>)
    ensures r.Some? <==> k in AssocKeys(m)
  {
    if m == [] then None else if m[0].0 == k then Some(m[0].1) else AssocGet(m[1..], k)
  }

  /** `d[k] = v`: an existing key keeps its position, a new key goes last. */
  function AssocPut<K(!new,==), V>(m: Assoc<K, V>, k: K, v: V): (r: Assoc<K, V>)
    ensures k in AssocKeys(m) ==> AssocKeys(r) == AssocKeys(m)
    ensures k !in AssocKeys(m) ==> AssocKeys(r) == AssocKeys(m) + [k]
    ensures AssocGet(r, k) == Some(v)
    ensures forall k' :: k' != k ==> AssocGet(r, k') == AssocGet(m, k')
  {
    if m == [] then [(k, v)]
    else
      assert m == [m[0]] + m[1..];
      if m[0].0 == k then
        PutAtHead(m[0], m[1..], k, v);
        [(k, v)] + m[1..]
      else
        var rest := AssocPut(m[1..], k, v);
        PutBehindHead(m[0], m[1..], k, v, rest);
        [m[0]] + rest
  }

  /** `r` is `m` with `k` set to `v`, as `AssocPut` promises. */
  ghost predicate IsPut<K(!new), V>(m: Assoc<K, V>, k: K, v: V, r: Assoc<K, V>)
  {
    && (k in AssocKeys(m) ==> AssocKeys(r) == AssocKeys(m))
    && (k !in AssocKeys(m) ==> AssocKeys(r) == AssocKeys(m) + [k])
    && AssocGet(r, k) == Some(v)
    && (forall k' :: k' != k ==> AssocGet(r, k') == AssocGet(m, k'))
  }

  /** Keys and lookups of a list with one more entry in front. */
  lemma AssocCons<K, V>(x: (K, V), m: Assoc<K, V>)
    ensures AssocKeys([x] + m) == [x.0] + AssocKeys(m)
    ensures forall k :: AssocGet([x] + m, k) == if x.0 == k then Some(x.1) else AssocGet(m, k)
  {
    assert ([x] + m)[1..] == m;
  }

  lemma PutAtHead<K(!new), V>(x: (K, V), m: Assoc<K, V>, k: K, v: V)
    requires x.0 == k
    ensures IsPut([x] + m, k, v, [(k, v)] + m)
  {
    AssocCons(x, m);
    AssocCons((k, v), m);
  }

  lemma PutBehindHead<K(!new), V>(x: (K, V), m: Assoc<K, V>, k: K, v: V, r: Assoc<K, V>)
    requires x.0 != k && IsPut(m, k, v, r)
    ensures IsPut([x] + m, k, v, [x] + r)
  {
    AssocCons(x, m);
    AssocCons(x, r);
  }

  /** Setting a key twice is setting it once, to the second value. */
  lemma {:induction false} AssocPutTwice<K(!new), V>(m: Assoc<K, V>, k: K, v1: V, v2: V)
    ensures AssocPut(AssocPut(m, k, v1), k, v2) == AssocPut(m, k, v2)
  {
    if m == [] {
      assert [(k, v1)][1..] == [];
    } else if m[0].0 == k {
      assert AssocPut(m, k, v1)[1..] == m[1..];
    } else {
      AssocPutTwice(m[1..], k, v1, v2);
      var r1 := AssocPut(m, k, v1);
      assert r1[0] == m[0] && r1[1..] == AssocPut(m[1..], k, v1);
    }
  }

  /** `d[k] = v` brings in no entry other than `(k, v)`. */
  lemma {:induction false} AssocPutIn<K(!new), V>(m: Assoc<K, V>, k: K, v: V)
    ensures forall e :: e in AssocPut(m, k, v) ==> e == (k, v) || e in m
  {
    if m != [] && m[0].0 != k {
      AssocPutIn(m[1..], k, v);
      assert AssocPut(m, k, v) == [m[0]] + AssocPut(m[1..], k, v);
    }
  }

  /** With distinct keys, each entry is what a lookup of its key finds. */
  lemma {:induction false} AssocGetAt<K, V>(m: Assoc<K, V>, i: int)
    requires NoDuplicates(AssocKeys(m)) && 0 <= i < |m|
    ensures AssocGet(m, m[i].0) == Some(m[i].1)
  {
    if i > 0 {
      assert AssocKeys(m)[0] != AssocKeys(m)[i];
      assert AssocKeys(m[1..]) == AssocKeys(m)[1..];
      AssocGetAt(m[1..], i - 1);
    }
  }

  /** A lookup that succeeds finds an entry of the list. */
  lemma {:induction false} AssocGetIn<K, V>(m: Assoc<K, V>, k: K)
    requires AssocGet(m, k).Some?
    ensures (k, AssocGet(m, k).value) in m
  {
    if m[0].0 != k {
      AssocGetIn(m[1..], k);
    }
  }

  function AssocValues<K, V>(m: Assoc<K, V>): (r: seq<V>)
    ensures |r| == |m|
    ensures forall i :: 0 <= i < |m| ==> r[i] == m[i].1
  {
    if m == [] then [] else [m[0].1] + AssocValues(m[1..])
  }

  /** `d[k] = v` never makes a key occur twice. */
  lemma AssocPutNoDuplicates<K(!new), V>(m: Assoc<K, V>, k: K, v: V)
    requires NoDuplicates(AssocKeys(m))
    ensures NoDuplicates(AssocKeys(AssocPut(m, k, v)))
  {
    if k !in AssocKeys(m) {
      NoDuplicatesSnoc(AssocKeys(m), k);
    }
  }

  /** Appending an absent element keeps a list duplicate-free. */
  lemma NoDuplicatesSnoc<T>(s: seq<T>, x: T)
    requires NoDuplicates(s) && x !in s
    ensures NoDuplicates(s + [x])
  {
    forall i, j | 0 <= i < j < |s| + 1 ensures (s + [x])[i] != (s + [x])[j] {
      assert (s + [x])[i] == s[i];
    }
  }

  // ---------------------------------------------------------------------------
  // Lexicographic order on strings (Python's `<=` on `str`)
  // ---------------------------------------------------------------------------

  predicate LexLeq(a: string, b: string)
  {
    a == [] || (b != [] && (a[0] < b[0] || (a[0] == b[0] && LexLeq(a[1..], b[1..]))))
  }

  lemma {:induction false} LexLeqReflexive(a: string)
    ensures LexLeq(a, a)
  {
    if a != [] {
      LexLeqReflexive(a[1..]);
    }
  }

  lemma {:induction false} LexLeqTotal(a: string, b: string)
    ensures LexLeq(a, b) || LexLeq(b, a)
  {
    if a != [] && b != [] && a[0] == b[0] {
      LexLeqTotal(a[1..], b[1..]);
    }
  }

  lemma {:induction false} LexLeqTransitive(a: string, b: string, c: string)
    requires LexLeq(a, b) && LexLeq(b, c)
    ensures LexLeq(a, c)
  {
    if a != [] && b != [] && c != [] && a[0] == b[0] && b[0] == c[0] {
      LexLeqTransitive(a[1..], b[1..], c[1..]);
    }
  }

  lemma {:induction false} LexLeqAntisymmetric(a: string, b: string)
    requires LexLeq(a, b) && LexLeq(b, a)
    ensures a == b
  {
    if a != [] && b != [] {
      LexLeqAntisymmetric(a[1..], b[1..]);
      assert a == [a[0]] + a[1..];
      assert b == [b[0]] + b[1..];
    }
  }

  /** Python's `<=` on pairs of strings: by the first, then by the second. */
  predicate PairLeq(a: (string, string), b: (string, string))
  {
    (LexLeq(a.0, b.0) && a.0 != b.0) || (a.0 == b.0 && LexLeq(a.1, b.1))
  }

  lemma PairLeqIsTotalPreorder()
    ensures IsTotalPreorder(PairLeq)
  {
    forall a: (string, string), b: (string, string) ensures PairLeq(a, b) || PairLeq(b, a) {
      LexLeqTotal(a.0, b.0);
      LexLeqTotal(a.1, b.1);
    }
    forall a: (string, string), b: (string, string), c: (string, string) | PairLeq(a, b) && PairLeq(b, c)
      ensures PairLeq(a, c)
    {
      if a.0 == b.0 && b.0 == c.0 {
        LexLeqTransitive(a.1, b.1, c.1);
      } else {
        LexLeqReflexive(a.0);
        LexLeqReflexive(b.0);
        assert LexLeq(a.0, b.0) && LexLeq(b.0, c.0);
        LexLeqTransitive(a.0, b.0, c.0);
        if a.0 == c.0 {
          LexLeqAntisymmetric(a.0, b.0);
        }
      }
    }
  }

  lemma PairLeqAntisymmetric(a: (string, string), b: (string, string))
    requires PairLeq(a, b) && PairLeq(b, a)
    ensures a == b
  {
    if a.0 == b.0 {
      LexLeqAntisymmetric(a.1, b.1);
    } else {
      LexLeqAntisymmetric(a.0, b.0);
    }
  }

  // ---------------------------------------------------------------------------
  // A stable sort (Python's `list.sort` / `sorted` with a key)
  // ---------------------------------------------------------------------------

  /** `precedes(a, b)` says that key `a` may stand before key `b`. */
  ghost predicate IsTotalPreorder<K(!new)>(precedes: (K, K) -> bool)
  {
    && (forall a, b :: precedes(a, b) || precedes(b, a))
    && (forall a, b, c :: precedes(a, b) && precedes(b, c) ==> precedes(a, c))
  }

  ghost predicate SortedBy<T, K>(s: seq<T>, key: T -> K, precedes: (K, K) -> bool)
  {
    forall i, j :: 0 <= i < j < |s| ==> precedes(key(s[i]), key(s[j]))
  }

  /** Inserts `x` after every element whose key may precede `x`'s key. */
  function InsertBy<T, K>(x: T, s: seq<T>, key: T -> K, precedes: (K, K) -> bool): (r: seq<T>)
    ensures multiset(r) == multiset(s) + multiset{x}
    ensures |r| == |s| + 1
  {
    assert s != [] ==> s == [s[0]] + s[1..];
    if s == [] then [x]
    else if precedes(key(s[0]), key(x)) then [s[0]] + InsertBy(x, s[1..], key, precedes)
    else [x] + s
  }

  /** Insertion sort: each element in turn is inserted into the sorted
      prefix after all elements of an equal key, which makes it stable. */
  function SortBy<T, K>(s: seq<T>, key: T -> K, precedes: (K, K) -> bool): (r: seq<T>)
    ensures multiset(r) == multiset(s)
    ensures |r| == |s|
  {
    if s == [] then []
    else
      assert s == s[..|s| - 1] + [s[|s| - 1]];
      InsertBy(s[|s| - 1], SortBy(s[..|s| - 1], key, precedes), key, precedes)
  }

  lemma {:induction false} InsertSorted<T, K(!new)>(x: T, s: seq<T>, key: T -> K, precedes: (K, K) -> bool)
    requires IsTotalPreorder(precedes)
    requires SortedBy(s, key, precedes)
    ensures SortedBy(InsertBy(x, s, key, precedes), key, precedes)
  {
    if s != [] && precedes(key(s[0]), key(x)) {
      SortedTail(s, key, precedes);
      InsertSorted(x, s[1..], key, precedes);
      InsertSortedAfter(x, s, key, precedes);
    } else if s != [] {
      InsertSortedFront(x, s, key, precedes);
    }
  }

  /** `x` goes after the head: the head precedes all of the sorted rest. */
  lemma InsertSortedAfter<T, K(!new)>(x: T, s: seq<T>, key: T -> K, precedes: (K, K) -> bool)
    requires IsTotalPreorder(precedes)
    requires SortedBy(s, key, precedes) && s != [] && precedes(key(s[0]), key(x))
    requires SortedBy(InsertBy(x, s[1..], key, precedes), key, precedes)
    ensures SortedBy(InsertBy(x, s, key, precedes), key, precedes)
  {
    var t := InsertBy(x, s[1..], key, precedes);
    HeadPrecedesInsert(x, s, key, precedes);
    ConsSorted(s[0], t, key, precedes);
    assert InsertBy(x, s, key, precedes) == [s[0]] + t;
  }

  /** The head of a sorted `s` precedes every element of the insertion
      into its tail, when it precedes `x`. */
  lemma HeadPrecedesInsert<T, K(!new)>(x: T, s: seq<T>, key: T -> K, precedes: (K, K) -> bool)
    requires SortedBy(s, key, precedes) && s != [] && precedes(key(s[0]), key(x))
    ensures forall y :: y in InsertBy(x, s[1..], key, precedes) ==> precedes(key(s[0]), key(y))
  {
    var t := InsertBy(x, s[1..], key, precedes);
    forall y | y in t ensures precedes(key(s[0]), key(y)) {
      assert y in multiset(t);
      if y != x {
        assert y in multiset(s[1..]);
        var j :| 0 <= j < |s[1..]| && s[1..][j] == y;
        assert s[j + 1] == y;
      }
    }
  }

  lemma ConsSorted<T, K>(h: T, t: seq<T>, key: T -> K, precedes: (K, K) -> bool)
    requires SortedBy(t, key, precedes)
    requires forall y :: y in t ==> precedes(key(h), key(y))
    ensures SortedBy([h] + t, key, precedes)
  {
    var r := [h] + t;
    forall i, j | 0 <= i < j < |r| ensures precedes(key(r[i]), key(r[j])) {
      if i == 0 {
        assert r[j] == t[j - 1];
      } else {
        assert r[i] == t[i - 1] && r[j] == t[j - 1];
      }
    }
  }

  /** `x` goes in front: its key precedes the head's, hence every key. */
  lemma InsertSortedFront<T, K(!new)>(x: T, s: seq<T>, key: T -> K, precedes: (K, K) -> bool)
    requires IsTotalPreorder(precedes)
    requires SortedBy(s, key, precedes) && s != [] && !precedes(key(s[0]), key(x))
    ensures SortedBy(InsertBy(x, s, key, precedes), key, precedes)
  {
    var r := [x] + s;
    assert InsertBy(x, s, key, precedes) == r;
    forall i, j | 0 <= i < j < |r| ensures precedes(key(r[i]), key(r[j])) {
      if i == 0 {
        assert precedes(key(s[0]), key(x)) || precedes(key(x), key(s[0]));
        assert r[0] == x && r[j] == s[j - 1];
        if j > 1 {
          var a, b, c := key(x), key(s[0]), key(s[j - 1]);
          assert precedes(a, b) && precedes(b, c);
        }
      } else {
        assert r[i] == s[i - 1] && r[j] == s[j - 1];
      }
    }
  }

  lemma {:induction false} SortSorted<T, K(!new)>(s: seq<T>, key: T -> K, precedes: (K, K) -> bool)
    requires IsTotalPreorder(precedes)
    ensures SortedBy(SortBy(s, key, precedes), key, precedes)
  {
    if s != [] {
      SortSorted(s[..|s| - 1], key, precedes);
      InsertSorted(s[|s| - 1], SortBy(s[..|s| - 1], key, precedes), key, precedes);
    }
  }

  /** A prefix of a sorted sequence is sorted, and holds keys that may all
      precede the key of every element it leaves out. */
  lemma TopPrefix<T, K>(sorted: seq<T>, n: int, key: T -> K, precedes: (K, K) -> bool)
    requires SortedBy(sorted, key, precedes)
    ensures SortedBy(PyPrefix(sorted, n), key, precedes)
    ensures forall i, x :: 0 <= i < |PyPrefix(sorted, n)| && x in sorted && x !in PyPrefix(sorted, n) ==>
              precedes(key(PyPrefix(sorted, n)[i]), key(x))
  {
    var r := PyPrefix(sorted, n);
    forall i, x | 0 <= i < |r| && x in sorted && x !in r ensures precedes(key(r[i]), key(x)) {
      var j :| 0 <= j < |sorted| && sorted[j] == x;
      assert forall k :: 0 <= k < |r| ==> sorted[k] == r[k] != x;
      assert r[i] == sorted[i];
    }
  }

  lemma PrefixSubMultiset<T>(s: seq<T>, n: nat)
    requires n <= |s|
    ensures multiset(s[..n]) <= multiset(s)
  {
    assert s == s[..n] + s[n..];
  }

  lemma SameElements<T(!new)>(s: seq<T>, t: seq<T>)
    requires multiset(s) == multiset(t)
    ensures Elements(s) == Elements(t)
  {
    forall x ensures x in s <==> x in t {
      assert x in s <==> x in multiset(s);
      assert x in t <==> x in multiset(t);
    }
  }

  /** The elements of `s` whose key is `v`, in order. */
  function KeyClass<T, K(==)>(s: seq<T>, key: T -> K, v: K): (r: seq<T>)
  {
    if s == [] then [] else (if key(s[0]) == v then [s[0]] else []) + KeyClass(s[1..], key, v)
  }

  lemma {:induction false} KeyClassAppend<T, K>(s: seq<T>, t: seq<T>, key: T -> K, v: K)
    ensures KeyClass(s + t, key, v) == KeyClass(s, key, v) + KeyClass(t, key, v)
  {
    if s == [] {
      assert s + t == t;
    } else {
      var head := if key(s[0]) == v then [s[0]] else [];
      calc {
        KeyClass(s + t, key, v);
        { assert (s + t)[0] == s[0]; assert (s + t)[1..] == s[1..] + t; }
        head + KeyClass(s[1..] + t, key, v);
        { KeyClassAppend(s[1..], t, key, v); }
        head + (KeyClass(s[1..], key, v) + KeyClass(t, key, v));
        (head + KeyClass(s[1..], key, v)) + KeyClass(t, key, v);
        KeyClass(s, key, v) + KeyClass(t, key, v);
      }
    }
  }

  lemma KeyClassCons<T, K>(x: T, s: seq<T>, key: T -> K, v: K)
    ensures KeyClass([x] + s, key, v) == (if key(x) == v then [x] else []) + KeyClass(s, key, v)
  {
    assert ([x] + s)[1..] == s;
  }

  lemma KeyClassSingle<T, K>(x: T, key: T -> K, v: K)
    ensures KeyClass([x], key, v) == if key(x) == v then [x] else []
  {
    assert [x][1..] == [];
  }

  lemma {:induction false} KeyClassNone<T, K>(s: seq<T>, key: T -> K, v: K)
    requires forall i :: 0 <= i < |s| ==> key(s[i]) != v
    ensures KeyClass(s, key, v) == []
  {
    if s != [] {
      KeyClassNone(s[1..], key, v);
    }
  }

  lemma SortedTail<T, K>(s: seq<T>, key: T -> K, precedes: (K, K) -> bool)
    requires s != [] && SortedBy(s, key, precedes)
    ensures SortedBy(s[1..], key, precedes)
  {
    forall i, j | 0 <= i < j < |s[1..]| ensures precedes(key(s[1..][i]), key(s[1..][j])) {
      assert s[1..][i] == s[i + 1] && s[1..][j] == s[j + 1];
    }
  }

  /** When `x`'s key strictly precedes the first key of a sorted `s`, no
      element of `s` shares `x`'s key. */
  lemma NoneShareKey<T, K(!new)>(x: T, s: seq<T>, key: T -> K, precedes: (K, K) -> bool)
    requires IsTotalPreorder(precedes)
    requires SortedBy(s, key, precedes)
    requires s != [] && !precedes(key(s[0]), key(x))
    ensures KeyClass(s, key, key(x)) == []
  {
    forall i | 0 <= i < |s| ensures key(s[i]) != key(x) {
      if i > 0 {
        assert precedes(key(s[0]), key(s[i]));
      } else {
        assert precedes(key(x), key(x));
      }
    }
    KeyClassNone(s, key, key(x));
  }

  lemma {:induction false} InsertStable<T, K(!new)>(x: T, s: seq<T>, key: T -> K, precedes: (K, K) -> bool, v: K)
    requires IsTotalPreorder(precedes)
    requires SortedBy(s, key, precedes)
    ensures KeyClass(InsertBy(x, s, key, precedes), key, v)
         == KeyClass(s, key, v) + (if key(x) == v then [x] else [])
  {
    var ins := InsertBy(x, s, key, precedes);
    if s == [] {
    } else if precedes(key(s[0]), key(x)) {
      SortedTail(s, key, precedes);
      var rest := InsertBy(x, s[1..], key, precedes);
      InsertStable(x, s[1..], key, precedes, v);
      assert ins == [s[0]] + rest;
      KeyClassCons(s[0], rest, key, v);
      KeyClassCons(s[0], s[1..], key, v);
      assert [s[0]] + s[1..] == s;
    } else {
      if key(x) == v {
        NoneShareKey(x, s, key, precedes);
      }
      assert ins == [x] + s;
      KeyClassCons(x, s, key, v);
    }
  }

  /** Stability: for every key, the elements with that key keep their order. */
  lemma {:induction false} SortStable<T, K(!new)>(s: seq<T>, key: T -> K, precedes: (K, K) -> bool, v: K)
    requires IsTotalPreorder(precedes)
    ensures KeyClass(SortBy(s, key, precedes), key, v) == KeyClass(s, key, v)
  {
    if s != [] {
      SortStable(s[..|s| - 1], key, precedes, v);
      SortStableStep(s, key, precedes, v);
    }
  }

  /** One insertion of the sort keeps each key class in order. */
  lemma SortStableStep<T, K(!new)>(s: seq<T>, key: T -> K, precedes: (K, K) -> bool, v: K)
    requires IsTotalPreorder(precedes) && s != []
    requires KeyClass(SortBy(s[..|s| - 1], key, precedes), key, v) == KeyClass(s[..|s| - 1], key, v)
    ensures KeyClass(SortBy(s, key, precedes), key, v) == KeyClass(s, key, v)
  {
    var init, last := s[..|s| - 1], s[|s| - 1];
    var sorted := SortBy(init, key, precedes);
    SortSorted(init, key, precedes);
    calc {
      KeyClass(SortBy(s, key, precedes), key, v);
      KeyClass(InsertBy(last, sorted, key, precedes), key, v);
      { InsertStable(last, sorted, key, precedes, v); }
      KeyClass(sorted, key, v) + (if key(last) == v then [last] else []);
      { KeyClassSingle(last, key, v); }
      KeyClass(init, key, v) + KeyClass([last], key, v);
      { KeyClassAppend(init, [last], key, v); }
      KeyClass(init + [last], key, v);
      { InitLast(s); }
      KeyClass(s, key, v);
    }
  }

  lemma InitLast<T>(s: seq<T>)
    requires s != []
    ensures s[..|s| - 1] + [s[|s| - 1]] == s
  {
  }

  // ---------------------------------------------------------------------------
  // Fixed-size batching: `[data[i:i + size] for i in range(0, len(data), size)]`
  // ---------------------------------------------------------------------------

  /** The batches a `range(0, len(data), size)` loop slices out of `data`.
      A negative `size` gives an empty range; `size == 0` makes `range` raise,
      which callers rule out. */
  method SliceBatches<T>(data: seq<T>, size: int) returns (batches: seq<seq<T>>)
    requires size != 0
    ensures size < 0 ==> batches == []
    ensures size > 0 ==> Flatten(batches) == data
    ensures size > 0 ==> forall b :: b in batches ==> 1 <= |b| <= size
    ensures size > 0 ==> forall k :: 0 <= k < |batches| - 1 ==> |batches[k]| == size
  {
    batches := [];
    if size < 0 {
      return;
    }
    var i := 0;
    while i < |data|
      invariant 0 <= i <= |data|
      invariant Flatten(batches) == data[..i]
      invariant forall b :: b in batches ==> 1 <= |b| <= size
      invariant forall k :: 0 <= k < |batches| ==> |batches[k]| == size || (k == |batches| - 1 && i == |data|)
      decreases |data| - i
    {
      var j := if i + size < |data| then i + size else |data|;
      FlattenAppend(batches, data[i..j]);
      assert data[..i] + data[i..j] == data[..j];
      batches := batches + [data[i..j]];
      i := j;
    }
    assert data[..|data|] == data;
  }
  // ---------------------------------------------------------------------------
  // Maps, folds and grouping over sequences
  // ---------------------------------------------------------------------------

  /** `[f(x) for x in xs]`. */
  function MapSeq<T, U>(xs: seq<T>, f: T -> U): (r: seq<U>)
    ensures |r| == |xs|
    ensures forall i :: 0 <= i < |xs| ==> r[i] == f(xs[i])
  {
    seq(|xs|, i requires 0 <= i < |xs| => f(xs[i]))
  }

  /** The lists `f(x)` of the elements, one after the other. */
  function ConcatMap<T, U>(xs: seq<T>, f: T -> seq<U>): seq<U>
  {
    if xs == [] then [] else ConcatMap(xs[..|xs| - 1], f) + f(xs[|xs| - 1])
  }

  lemma ConcatMapAppend<T, U>(xs: seq<T>, x: T, f: T -> seq<U>)
    ensures ConcatMap(xs + [x], f) == ConcatMap(xs, f) + f(x)
  {
    assert (xs + [x])[..|xs|] == xs;
  }

  /** An element of the concatenation comes from some element's part, and
      every part is in the concatenation. */
  lemma {:induction false} ConcatMapMember<T, U>(xs: seq<T>, f: T -> seq<U>, y: U)
    ensures y in ConcatMap(xs, f) <==> exists i :: 0 <= i < |xs| && y in f(xs[i])
  {
    if xs != [] {
      var init := xs[..|xs| - 1];
      ConcatMapMember(init, f, y);
      assert forall i :: 0 <= i < |init| ==> init[i] == xs[i];
      if y in f(xs[|xs| - 1]) {
        assert y in ConcatMap(xs, f);
      }
    }
  }

  /** `[f(a, x) for x in xs]` for a fixed first argument. */
  function MapWith<A, T, U>(a: A, xs: seq<T>, f: (A, T) -> U): (r: seq<U>)
    ensures |r| == |xs|
    ensures forall i :: 0 <= i < |xs| ==> r[i] == f(a, xs[i])
  {
    seq(|xs|, i requires 0 <= i < |xs| => f(a, xs[i]))
  }

  lemma MapWithAppend<A, T, U>(a: A, xs: seq<T>, x: T, f: (A, T) -> U)
    ensures MapWith(a, xs + [x], f) == MapWith(a, xs, f) + [f(a, x)]
  {
  }

  /** The lists `f(a, x)` of the elements, one after the other, for a fixed
      first argument. */
  function ConcatWith<A, T, U>(a: A, xs: seq<T>, f: (A, T) -> seq<U>): seq<U>
  {
    if xs == [] then [] else ConcatWith(a, xs[..|xs| - 1], f) + f(a, xs[|xs| - 1])
  }

  lemma ConcatWithAppend<A, T, U>(a: A, xs: seq<T>, x: T, f: (A, T) -> seq<U>)
    ensures ConcatWith(a, xs + [x], f) == ConcatWith(a, xs, f) + f(a, x)
  {
    assert (xs + [x])[..|xs|] == xs;
  }

  /** An element of the concatenation comes from some element's part, and
      every part is in the concatenation. */
  lemma {:induction false} ConcatWithMember<A, T, U>(a: A, xs: seq<T>, f: (A, T) -> seq<U>, y: U)
    ensures y in ConcatWith(a, xs, f) <==> exists i :: 0 <= i < |xs| && y in f(a, xs[i])
  {
    if xs != [] {
      var init := xs[..|xs| - 1];
      ConcatWithMember(a, init, f, y);
      assert forall i :: 0 <= i < |init| ==> init[i] == xs[i];
      if y in f(a, xs[|xs| - 1]) {
        assert y in ConcatWith(a, xs, f);
      }
    }
  }

  lemma MapSeqAppend<T, U>(xs: seq<T>, ys: seq<T>, f: T -> U)
    ensures MapSeq(xs + ys, f) == MapSeq(xs, f) + MapSeq(ys, f)
  {
    assert forall i :: 0 <= i < |xs + ys| ==> MapSeq(xs + ys, f)[i] == (MapSeq(xs, f) + MapSeq(ys, f))[i];
  }

  /** A loop that appends `f(x)` for each element to `parts`. */
  method MapLoop<T, U>(parts: seq<U>, xs: seq<T>, f: T -> U) returns (r: seq<U>)
    ensures r == parts + MapSeq(xs, f)
  {
    r := parts;
    var i := 0;
    while i < |xs|
      invariant 0 <= i <= |xs|
      invariant |r| == |parts| + i && r[..|parts|] == parts
      invariant forall k :: 0 <= k < i ==> r[|parts| + k] == f(xs[k])
    {
      r := r + [f(xs[i])];
      i := i + 1;
    }
  }

  /** The lists `f(n, x)` of the elements numbered from 1 (`enumerate(xs, 1)`). */
  function Numbered<T, U>(xs: seq<T>, f: (nat, T) -> seq<U>): seq<U>
  {
    if xs == [] then [] else Numbered(xs[..|xs| - 1], f) + f(|xs|, xs[|xs| - 1])
  }

  /** With three lines per element, element `i` (from 0) takes lines `3i`
      to `3i + 2` and is numbered `i + 1`. */
  lemma {:induction false} NumberedThree<T, U>(xs: seq<T>, f: (nat, T) -> seq<U>)
    requires forall n, x :: |f(n, x)| == 3
    ensures |Numbered(xs, f)| == 3 * |xs|
    ensures forall i :: 0 <= i < |xs| ==> Numbered(xs, f)[3 * i..3 * i + 3] == f(i + 1, xs[i])
  {
    if xs != [] {
      var p := xs[..|xs| - 1];
      NumberedThree(p, f);
      var a, b := Numbered(p, f), f(|xs|, xs[|xs| - 1]);
      forall i | 0 <= i < |xs| ensures (a + b)[3 * i..3 * i + 3] == f(i + 1, xs[i]) {
        if i < |p| {
          assert (a + b)[3 * i..3 * i + 3] == a[3 * i..3 * i + 3];
          assert xs[i] == p[i];
        } else {
          assert (a + b)[3 * i..3 * i + 3] == b;
        }
      }
    }
  }

  /** A loop that appends the lines of each element, numbering from 1. */
  method NumberedLoop<T, U>(parts: seq<U>, xs: seq<T>, f: (nat, T) -> seq<U>) returns (r: seq<U>)
    ensures r == parts + Numbered(xs, f)
  {
    r := parts;
    var i := 0;
    while i < |xs|
      invariant 0 <= i <= |xs|
      invariant r == parts + Numbered(xs[..i], f)
    {
      r := r + f(i + 1, xs[i]);
      assert xs[..i + 1][..i] == xs[..i];
      i := i + 1;
    }
    assert xs[..i] == xs;
  }

  /** `a + b + c` begins with `a` and ends with `c`. */
  lemma ConcatEnds<T>(a: seq<T>, b: seq<T>, c: seq<T>)
    ensures |a| <= |a + b + c| && (a + b + c)[..|a|] == a
    ensures |c| <= |a + b + c| && (a + b + c)[|a + b + c| - |c|..] == c
  {
  }

  /** The distinct elements of `ks` in order of first appearance. */
  function FirstSeen<K(!new,==)>(ks: seq<K>): seq<K>
  {
    if ks == [] then []
    else
      var prefix := FirstSeen(ks[..|ks| - 1]);
      if ks[|ks| - 1] in prefix then prefix else prefix + [ks[|ks| - 1]]
  }

  /** The first-seen order holds each element of `ks` exactly once. */
  lemma {:induction false} FirstSeenProperties<K(!new)>(ks: seq<K>)
    ensures forall k :: k in FirstSeen(ks) <==> k in ks
    ensures NoDuplicates(FirstSeen(ks))
  {
    if ks != [] {
      var p := ks[..|ks| - 1];
      FirstSeenProperties(p);
      assert ks == p + [ks[|ks| - 1]];
    }
  }

  lemma {:induction false} KeyClassEmpty<T, K>(s: seq<T>, key: T -> K, v: K)
    ensures KeyClass(s, key, v) == [] <==> v !in MapSeq(s, key)
  {
    if s != [] {
      KeyClassEmpty(s[1..], key, v);
      assert MapSeq(s, key) == [key(s[0])] + MapSeq(s[1..], key);
    }
  }

  /** `d[key(x)] = val(x)` for each element in turn. */
  function PutAll<T, K(!new,==), V>(xs: seq<T>, key: T -> K, val: T -> V): Assoc<K, V>
  {
    if xs == [] then [] else AssocPut(PutAll(xs[..|xs| - 1], key, val), key(xs[|xs| - 1]), val(xs[|xs| - 1]))
  }

  /** The elements with key `k`, split at the last element. */
  lemma KeyClassLast<T, K>(xs: seq<T>, key: T -> K, k: K)
    requires xs != []
    ensures KeyClass(xs, key, k) == KeyClass(xs[..|xs| - 1], key, k) + (if key(xs[|xs| - 1]) == k then [xs[|xs| - 1]] else [])
  {
    assert xs == xs[..|xs| - 1] + [xs[|xs| - 1]];
    KeyClassAppend(xs[..|xs| - 1], [xs[|xs| - 1]], key, k);
    KeyClassSingle(xs[|xs| - 1], key, k);
  }

  /** The first-seen keys, split at the last element. */
  lemma FirstSeenLast<T, K(!new)>(xs: seq<T>, key: T -> K)
    requires xs != []
    ensures FirstSeen(MapSeq(xs, key)) ==
              var prefix := FirstSeen(MapSeq(xs[..|xs| - 1], key));
              if key(xs[|xs| - 1]) in prefix then prefix else prefix + [key(xs[|xs| - 1])]
  {
    var ks := MapSeq(xs, key);
    assert ks[..|ks| - 1] == MapSeq(xs[..|xs| - 1], key);
  }

  /** A key is among the first-seen keys exactly when some element has it. */
  lemma FirstSeenKey<T, K(!new)>(xs: seq<T>, key: T -> K, k: K)
    ensures k in FirstSeen(MapSeq(xs, key)) <==> KeyClass(xs, key, k) != []
  {
    FirstSeenProperties(MapSeq(xs, key));
    KeyClassEmpty(xs, key, k);
  }

  /** The keys of `PutAll` come in order of first appearance. */
  lemma {:induction false} PutAllKeys<T, K(!new), V>(xs: seq<T>, key: T -> K, val: T -> V)
    ensures AssocKeys(PutAll(xs, key, val)) == FirstSeen(MapSeq(xs, key))
  {
    if xs != [] {
      var p := xs[..|xs| - 1];
      PutAllKeys(p, key, val);
      FirstSeenLast(xs, key);
    }
  }

  /** Each key is mapped to the value of the last element with that key. */
  lemma {:induction false} PutAllGet<T, K(!new), V>(xs: seq<T>, key: T -> K, val: T -> V, k: K)
    ensures AssocGet(PutAll(xs, key, val), k) ==
              if KeyClass(xs, key, k) == [] then None else Some(val(KeyClass(xs, key, k)[|KeyClass(xs, key, k)| - 1]))
  {
    if xs != [] {
      PutAllGet(xs[..|xs| - 1], key, val, k);
      KeyClassLast(xs, key, k);
    }
  }

  /** `PutAll` in full: keys in order of first appearance, the last value
      of each key winning. */
  lemma PutAllProperties<T, K(!new), V>(xs: seq<T>, key: T -> K, val: T -> V)
    ensures AssocKeys(PutAll(xs, key, val)) == FirstSeen(MapSeq(xs, key))
    ensures forall k :: AssocGet(PutAll(xs, key, val), k) ==
              if KeyClass(xs, key, k) == [] then None else Some(val(KeyClass(xs, key, k)[|KeyClass(xs, key, k)| - 1]))
  {
    PutAllKeys(xs, key, val);
    forall k
      ensures AssocGet(PutAll(xs, key, val), k) ==
              if KeyClass(xs, key, k) == [] then None else Some(val(KeyClass(xs, key, k)[|KeyClass(xs, key, k)| - 1]))
    {
      PutAllGet(xs, key, val, k);
    }
  }

  /** The groups of `xs` by key, as a dictionary of lists. */
  type Groups<K, T> = Assoc<K, seq<T>>

  function AddToGroup<T, K(!new,==)>(g: Groups<K, T>, x: T, key: T -> K): Groups<K, T>
  {
    match AssocGet(g, key(x))
    case None => AssocPut(g, key(x), [x])
    case Some(members) => AssocPut(g, key(x), members + [x])
  }

  function GroupBy<T, K(!new,==)>(xs: seq<T>, key: T -> K): Groups<K, T>
  {
    if xs == [] then [] else AddToGroup(GroupBy(xs[..|xs| - 1], key), xs[|xs| - 1], key)
  }

  lemma AddToGroupGet<T, K(!new)>(g: Groups<K, T>, x: T, key: T -> K, k: K)
    ensures AssocGet(AddToGroup(g, x, key), k) ==
              if key(x) != k then AssocGet(g, k)
              else Some((if AssocGet(g, k).Some? then AssocGet(g, k).value else []) + [x])
  {
    match AssocGet(g, key(x)) {
      case None =>
        assert [] + [x] == [x];
      case Some(members) =>
    }
  }

  /** The keys of the groups come in order of first appearance. */
  lemma {:induction false} GroupByKeys<T, K(!new)>(xs: seq<T>, key: T -> K)
    ensures AssocKeys(GroupBy(xs, key)) == FirstSeen(MapSeq(xs, key))
  {
    if xs != [] {
      var p := xs[..|xs| - 1];
      GroupByKeys(p, key);
      FirstSeenLast(xs, key);
      match AssocGet(GroupBy(p, key), key(xs[|xs| - 1])) {
        case None =>
        case Some(members) =>
      }
    }
  }

  /** The group of a key holds exactly the elements with that key, in order. */
  lemma {:induction false} GroupByGet<T, K(!new)>(xs: seq<T>, key: T -> K, k: K)
    ensures AssocGet(GroupBy(xs, key), k) == if KeyClass(xs, key, k) == [] then None else Some(KeyClass(xs, key, k))
  {
    if xs != [] {
      var p, x := xs[..|xs| - 1], xs[|xs| - 1];
      GroupByGet(p, key, k);
      KeyClassLast(xs, key, k);
      var g := GroupBy(p, key);
      assert GroupBy(xs, key) == AddToGroup(g, x, key);
      AddToGroupGet(g, x, key, k);
      if key(x) == k {
        assert KeyClass(xs, key, k) == KeyClass(p, key, k) + [x];
        if KeyClass(p, key, k) == [] {
          assert [] + [x] == KeyClass(p, key, k) + [x];
          assert AssocGet(GroupBy(xs, key), k) == Some(KeyClass(xs, key, k));
        } else {
          assert AssocGet(g, k) == Some(KeyClass(p, key, k));
          assert AssocGet(GroupBy(xs, key), k) == Some(KeyClass(xs, key, k));
        }
      } else {
        assert KeyClass(xs, key, k) == KeyClass(p, key, k);
        assert AssocGet(GroupBy(xs, key), k) == AssocGet(g, k);
      }
    }
  }

  /** Grouping lists the keys in order of first appearance and puts under
      each key exactly its elements, in their original order. */
  lemma GroupByProperties<T, K(!new)>(xs: seq<T>, key: T -> K)
    ensures AssocKeys(GroupBy(xs, key)) == FirstSeen(MapSeq(xs, key))
    ensures forall k :: AssocGet(GroupBy(xs, key), k) ==
              if KeyClass(xs, key, k) == [] then None else Some(KeyClass(xs, key, k))
  {
    GroupByKeys(xs, key);
    forall k
      ensures AssocGet(GroupBy(xs, key), k) == if KeyClass(xs, key, k) == [] then None else Some(KeyClass(xs, key, k))
    {
      GroupByGet(xs, key, k);
    }
  }

  /** The grouping loop. */
  method GroupLoop<T, K(!new,==)>(xs: seq<T>, key: T -> K) returns (g: Groups<K, T>)
    ensures g == GroupBy(xs, key)
  {
    g := [];
    var i := 0;
    while i < |xs|
      invariant 0 <= i <= |xs|
      invariant g == GroupBy(xs[..i], key)
    {
      GroupByStep(xs, i, key);
      g := AddToGroup(g, xs[i], key);
      i := i + 1;
    }
    assert xs[..i] == xs;
  }

  lemma GroupByStep<T, K(!new)>(xs: seq<T>, i: nat, key: T -> K)
    requires i < |xs|
    ensures GroupBy(xs[..i + 1], key) == AddToGroup(GroupBy(xs[..i], key), xs[i], key)
  {
    assert xs[..i + 1][..i] == xs[..i];
  }
}
