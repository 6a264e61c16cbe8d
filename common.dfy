/**
 * Shared vocabulary of the model: optional values and error results, the Python
 * string operations the modules rely on (ASCII case mapping, substring tests,
 * split, strip, replace), Python slice semantics, insertion-ordered dictionaries
 * and a few real-number helpers.
 */
module Common {

  datatype Option<T> = None | Some(value: T)

  /** A Python call that either returns a value or raises with a message. */
  datatype Result<T> = Ok(value: T) | Err(msg: string)
  {
    predicate IsFailure() { Err? }
    function PropagateFailure<U>(): Result<U> requires Err? { Err(msg) }
    function Extract(): T requires Ok? { value }
  }

  /** A decoded JSON / Python value: the dynamically typed data the source passes around. */
  datatype Value =
    | Null
    | Bool(b: bool)
    | Int(i: int)
    | Num(r: real)
    | Str(s: string)
    | List(items: seq<Value>)
    | Dict(entries: seq<(string, Value)>)

  /** A Python number as a real: ints and floats, and bools as 0 or 1; anything else raises on comparison. */
  function AsNumber(v: Value): Option<real>
  {
    match v
    case Int(i) => Some(i as real)
    case Num(r) => Some(r)
    case Bool(b) => Some(if b then 1.0 else 0.0)
    case _ => None
  }

  /** Python truthiness. */
  predicate Truthy(v: Value)
  {
    match v
    case Null => false
    case Bool(b) => b
    case Int(i) => i != 0
    case Num(r) => r != 0.0
    case Str(s) => |s| > 0
    case List(xs) => |xs| > 0
    case Dict(es) => |es| > 0
  }

  // ---------------------------------------------------------------- strings

  function LowerChar(c: char): char
  {
    if 'A' <= c <= 'Z' then (c as int + 32) as char else c
  }

  function UpperChar(c: char): char
  {
    if 'a' <= c <= 'z' then (c as int - 32) as char else c
  }

  /** `str.lower()` on the ASCII range; other characters are kept. */
  function Lower(s: string): (r: string)
    ensures |r| == |s|
    ensures forall i :: 0 <= i < |s| ==> r[i] == LowerChar(s[i])
  {
    seq(|s|, i requires 0 <= i < |s| => LowerChar(s[i]))
  }

  /** `str.upper()` on the ASCII range. */
  function Upper(s: string): (r: string)
    ensures |r| == |s|
    ensures forall i :: 0 <= i < |s| ==> r[i] == UpperChar(s[i])
  {
    seq(|s|, i requires 0 <= i < |s| => UpperChar(s[i]))
  }

  predicate StartsWith(s: string, prefix: string)
  {
    |prefix| <= |s| && s[..|prefix|] == prefix
  }

  /** Python's `sub in s`. */
  predicate Contains(s: string, sub: string)
    decreases |s|
  {
    StartsWith(s, sub) || (|s| > 0 && Contains(s[1..], sub))
  }

  /** Python's `s.find(sub)`, as an option: the first index at which `sub` occurs. */
  function IndexOf(s: string, sub: string): (r: Option<nat>)
    decreases |s|
    ensures r.Some? <==> Contains(s, sub)
    ensures r.Some? ==> r.value + |sub| <= |s| && s[r.value..r.value + |sub|] == sub
  {
    if StartsWith(s, sub) then Some(0)
    else if |s| == 0 then None
    else match IndexOf(s[1..], sub)
      case None => None
      case Some(k) =>
        assert s[1..][k..k + |sub|] == s[k + 1..k + 1 + |sub|];
        Some(k + 1)
  }

  /**
   * Python's `str(e)` for an exception whose message is written here as
   * "Kind: text": the text after the class name, or the whole message when
   * it carries no class name.
   */
  function ExceptionText(m: string): (r: string)
    ensures Contains(m, ": ") ==> |r| + 2 <= |m| && m[|m| - |r| - 2..|m| - |r|] == ": " && r == m[|m| - |r|..]
    ensures !Contains(m, ": ") ==> r == m
  {
    match IndexOf(m, ": ")
    case Some(i) => m[i + 2..]
    case None => m
  }

  /** A text shows `sub` wherever a slice of it equals `sub`. */
  lemma {:induction false} ContainsAt(s: string, sub: string, i: nat)
    requires i + |sub| <= |s| && s[i..i + |sub|] == sub
    ensures Contains(s, sub)
    decreases i
  {
    if i > 0 {
      assert s[1..][i - 1..i - 1 + |sub|] == sub;
      ContainsAt(s[1..], sub, i - 1);
    }
  }

  /** A text without the first character of a non-empty `sub` does not contain it. */
  lemma {:induction false} LacksFirst(s: string, sub: string)
    requires |sub| > 0 && forall i :: 0 <= i < |s| ==> s[i] != sub[0]
    ensures !Contains(s, sub)
    decreases |s|
  {
    if |s| > 0 {
      if |sub| <= |s| {
        assert s[..|sub|][0] == s[0];
      }
      LacksFirst(s[1..], sub);
    }
  }

  predicate ContainsAny(s: string, words: seq<string>)
  {
    exists i :: 0 <= i < |words| && Contains(s, words[i])
  }

  predicate IsSpace(c: char)
  {
    c == ' ' || c == '\t' || c == '\n' || c == '\r' || c == '\U{0B}' || c == '\U{0C}'
  }

  function StripLeft(s: string): (r: string)
    decreases |s|
    ensures |r| <= |s|
    ensures |r| > 0 ==> !IsSpace(r[0])
  {
    if |s| > 0 && IsSpace(s[0]) then StripLeft(s[1..]) else s
  }

  function StripRight(s: string): (r: string)
    decreases |s|
    ensures |r| <= |s|
    ensures |r| > 0 ==> !IsSpace(r[|r| - 1])
  {
    if |s| > 0 && IsSpace(s[|s| - 1]) then StripRight(s[..|s| - 1]) else s
  }

  /** `str.strip()` with ASCII whitespace. */
  function Strip(s: string): string
  {
    StripRight(StripLeft(s))
  }

  /** `s.split(sep)` for a one-character separator: never empty. */
  function Split(s: string, sep: char): (r: seq<string>)
    decreases |s|
    ensures |r| >= 1
  {
    if |s| == 0 then [""]
    else if s[0] == sep then [""] + Split(s[1..], sep)
    else
      var rest := Split(s[1..], sep);
      [[s[0]] + rest[0]] + rest[1..]
  }

  /** Splitting loses nothing: joining the parts back gives s, and no part holds sep. */
  lemma SplitJoin(s: string, sep: char)
    ensures Join(Split(s, sep), [sep]) == s
    ensures forall i, j :: 0 <= i < |Split(s, sep)| && 0 <= j < |Split(s, sep)[i]| ==> Split(s, sep)[i][j] != sep
  {
    SplitRejoins(s, sep);
    SplitPartsFree(s, sep);
  }

  /** Joining the parts of s with the separator gives s back. */
  lemma {:induction false} SplitRejoins(s: string, sep: char)
    decreases |s|
    ensures Join(Split(s, sep), [sep]) == s
  {
    if |s| > 0 {
      var rest := Split(s[1..], sep);
      SplitRejoins(s[1..], sep);
      if s[0] == sep {
        assert Split(s, sep) == [""] + rest;
        assert Join([""] + rest, [sep]) == "" + [sep] + Join(rest, [sep]);
        assert s == [sep] + s[1..];
      } else {
        var parts := Split(s, sep);
        assert parts == [[s[0]] + rest[0]] + rest[1..];
        if |rest| == 1 {
          assert Join(parts, [sep]) == [s[0]] + rest[0];
          assert Join(rest, [sep]) == rest[0];
        } else {
          assert Join(parts, [sep]) == [s[0]] + rest[0] + [sep] + Join(rest[1..], [sep]);
          assert Join(rest, [sep]) == rest[0] + [sep] + Join(rest[1..], [sep]);
        }
        assert s == [s[0]] + s[1..];
      }
    }
  }

  /** No part of a split holds the separator. */
  lemma {:induction false} SplitPartsFree(s: string, sep: char)
    decreases |s|
    ensures forall i, j :: 0 <= i < |Split(s, sep)| && 0 <= j < |Split(s, sep)[i]| ==> Split(s, sep)[i][j] != sep
  {
    if |s| > 0 {
      var rest := Split(s[1..], sep);
      SplitPartsFree(s[1..], sep);
      var parts := Split(s, sep);
      if s[0] == sep {
        assert parts == [""] + rest;
        forall i, j | 0 <= i < |parts| && 0 <= j < |parts[i]| ensures parts[i][j] != sep {
          assert parts[i] == rest[i - 1];
        }
      } else {
        assert parts == [[s[0]] + rest[0]] + rest[1..];
        forall i, j | 0 <= i < |parts| && 0 <= j < |parts[i]| ensures parts[i][j] != sep {
          if i == 0 && j > 0 {
            assert parts[0][j] == rest[0][j - 1];
          } else if i > 0 {
            assert parts[i] == rest[i];
          }
        }
      }
    }
  }

  /** A string without the separator splits into itself. */
  lemma {:induction false} SplitFree(s: string, sep: char)
    requires sep !in s
    decreases |s|
    ensures Split(s, sep) == [s]
  {
    if |s| > 0 {
      SplitFree(s[1..], sep);
      assert [s[0]] + s[1..] == s;
    }
  }

  /** Splitting at the first separator. */
  lemma {:induction false} SplitAt(x: string, y: string, sep: char)
    requires sep !in x
    decreases |x|
    ensures Split(x + [sep] + y, sep) == [x] + Split(y, sep)
  {
    var s := x + [sep] + y;
    if |x| == 0 {
      assert s == [sep] + y;
      assert s[1..] == y;
    } else {
      assert s[0] == x[0] && s[1..] == x[1..] + [sep] + y;
      SplitAt(x[1..], y, sep);
      assert [x[0]] + x[1..] == x;
    }
  }

  /** `sep.join(parts)`. */
  function Join(parts: seq<string>, sep: string): string
  {
    if |parts| == 0 then ""
    else if |parts| == 1 then parts[0]
    else parts[0] + sep + Join(parts[1..], sep)
  }

  /** `s.replace(pat, rep)` for a non-empty pattern, left to right, non-overlapping. */
  function Replace(s: string, pat: string, rep: string): string
    requires |pat| > 0
    decreases |s|
  {
    if |s| < |pat| then s
    else if s[..|pat|] == pat then rep + Replace(s[|pat|..], pat, rep)
    else [s[0]] + Replace(s[1..], pat, rep)
  }

  /** Python `s[:k]` for a non-negative k. */
  function Take<T>(s: seq<T>, k: nat): (r: seq<T>)
    ensures |r| == if k < |s| then k else |s|
    ensures r == s[..|r|]
  {
    if k < |s| then s[..k] else s
  }

  /**
   * Python `s[-k:]`: the last k elements for k > 0, the whole sequence for
   * k == 0 (because -0 == 0), and `s[|k|:]` for a negative k.
   */
  function TakeLast<T>(s: seq<T>, k: int): (r: seq<T>)
    ensures k > 0 ==> r == s[|s| - (if k < |s| then k else |s|)..]
    ensures k == 0 ==> r == s
    ensures k < 0 ==> r == s[(if -k < |s| then -k else |s|)..]
  {
    if k > 0 then (if k < |s| then s[|s| - k..] else s)
    else if k == 0 then s
    else (if -k < |s| then s[-k..] else [])
  }

  /** Being a prefix is transitive. */
  lemma PrefixTrans<T>(a: seq<T>, b: seq<T>, c: seq<T>)
    requires |a| <= |b| && b[..|a|] == a
    requires |b| <= |c| && c[..|b|] == b
    ensures |a| <= |c| && c[..|a|] == a
  {
    assert forall k :: 0 <= k < |a| ==> c[k] == b[k];
  }

  /** What a prefix holds, the longer sequence holds. */
  lemma PrefixIn<T>(a: seq<T>, b: seq<T>, x: T)
    requires |a| <= |b| && b[..|a|] == a
    requires x in a
    ensures x in b
  {
    var j :| 0 <= j < |a| && a[j] == x;
    assert b[j] == a[j];
  }

  /** Extending a prefix by one element. */
  lemma PrefixSnoc<T>(s: seq<T>, i: nat)
    requires i < |s|
    ensures s[..i + 1] == s[..i] + [s[i]]
  {
  }

  /** The prefix as long as the sequence is the sequence. */
  lemma WholePrefix<T>(s: seq<T>)
    ensures s[..|s|] == s
  {
  }

  /** The first two parts of a concatenation of three are its leading slices. */
  lemma ConcatParts<T>(a: seq<T>, b: seq<T>, c: seq<T>)
    ensures (a + b + c)[..|a|] == a && (a + b + c)[|a|..|a| + |b|] == b
  {
  }

  /** A non-empty sequence is its front followed by its last element. */
  lemma LastSplit<T>(s: seq<T>)
    requires |s| > 0
    ensures s[..|s| - 1] + [s[|s| - 1]] == s
  {
  }

  // ----------------------------------------------------- ordered dictionaries

  predicate Unique<T(==)>(s: seq<T>)
  {
    forall i, j :: 0 <= i < j < |s| ==> s[i] != s[j]
  }

  function Keys<K, V>(d: seq<(K, V)>): (r: seq<K>)
    ensures |r| == |d|
    ensures forall i :: 0 <= i < |d| ==> r[i] == d[i].0
  {
    seq(|d|, i requires 0 <= i < |d| => d[i].0)
  }

  function Values<K, V>(d: seq<(K, V)>): (r: seq<V>)
    ensures |r| == |d|
    ensures forall i :: 0 <= i < |d| ==> r[i] == d[i].1
  {
    seq(|d|, i requires 0 <= i < |d| => d[i].1)
  }

  /** The keys of one more entry. */
  lemma KeysSnoc<K, V>(d: seq<(K, V)>, e: (K, V))
    ensures Keys(d + [e]) == Keys(d) + [e.0]
  {
    assert forall i :: 0 <= i < |d| ==> (d + [e])[i] == d[i];
  }

  /** The keys of a prefix one entry longer. */
  lemma KeysPrefixSnoc<K, V>(d: seq<(K, V)>, i: nat)
    requires i < |d|
    ensures Keys(d[..i + 1]) == Keys(d[..i]) + [d[i].0]
  {
    assert d[..i + 1] == d[..i] + [d[i]];
    KeysSnoc(d[..i], d[i]);
  }

  /** `k in d`. */
  predicate HasKey<K(==), V>(d: seq<(K, V)>, k: K)
  {
    exists i :: 0 <= i < |d| && d[i].0 == k
  }

  /** `d.get(k)`: the value of the first entry with key k. */
  function Get<K(==), V>(d: seq<(K, V)>, k: K): (r: Option<V>)
    ensures r.Some? <==> HasKey(d, k)
    ensures r.Some? ==> (k, r.value) in d
  {
    if |d| == 0 then None
    else if d[0].0 == k then Some(d[0].1)
    else
      var r := Get(d[1..], k);
      assert r.Some? ==> (k, r.value) in d[1..];
      r
  }

  /** The entry at i is the first one with its key, so `d.get` finds it. */
  lemma {:induction false} GetAt<K, V>(d: seq<(K, V)>, i: nat)
    requires i < |d|
    requires forall j :: 0 <= j < i ==> d[j].0 != d[i].0
    ensures Get(d, d[i].0) == Some(d[i].1)
  {
    if i > 0 {
      assert d[1..][i - 1] == d[i];
      GetAt(d[1..], i - 1);
    }
  }

  /** With distinct keys every entry is what its key reads. */
  lemma UniqueGetAt<K, V>(d: seq<(K, V)>, i: nat)
    requires i < |d| && Unique(Keys(d))
    ensures Get(d, d[i].0) == Some(d[i].1)
  {
    forall j | 0 <= j < i ensures d[j].0 != d[i].0 {
      assert Keys(d)[j] == d[j].0 && Keys(d)[i] == d[i].0;
    }
    GetAt(d, i);
  }

  function GetOr<K(==), V>(d: seq<(K, V)>, k: K, default: V): V
  {
    match Get(d, k)
    case Some(v) => v
    case None => default
  }

  /** A single entry holds its own key only. */
  lemma HasKeySingle<K, V>(d: seq<(K, V)>, k: K)
    requires |d| <= 1
    ensures HasKey(d, k) <==> |d| == 1 && d[0].0 == k
    ensures Get(d, k) == if |d| == 1 && d[0].0 == k then Some(d[0].1) else None
  {
  }

  lemma HasKeyConcat<K, V>(a: seq<(K, V)>, b: seq<(K, V)>, k: K)
    ensures HasKey(a + b, k) <==> HasKey(a, k) || HasKey(b, k)
  {
    if HasKey(a + b, k) {
      var i :| 0 <= i < |a + b| && (a + b)[i].0 == k;
      if i >= |a| {
        assert b[i - |a|] == (a + b)[i];
      }
    }
    if HasKey(b, k) {
      var i :| 0 <= i < |b| && b[i].0 == k;
      assert (a + b)[|a| + i] == b[i];
    }
    if HasKey(a, k) {
      var i :| 0 <= i < |a| && a[i].0 == k;
      assert (a + b)[i] == a[i];
    }
  }

  /** Looking a key up in a concatenation: the first part wins. */
  lemma {:induction false} GetConcat<K, V>(a: seq<(K, V)>, b: seq<(K, V)>, k: K)
    ensures Get(a + b, k) == if HasKey(a, k) then Get(a, k) else Get(b, k)
  {
    if |a| == 0 {
      assert a + b == b;
    } else {
      assert (a + b)[0] == a[0] && (a + b)[1..] == a[1..] + b;
      GetConcat(a[1..], b, k);
      if a[0].0 != k {
        HasKeyConcat([a[0]], a[1..], k);
        assert [a[0]] + a[1..] == a;
      }
    }
  }

  /** Two dictionaries with distinct keys and no key in common concatenate to one. */
  lemma UniqueKeysConcat<K, V>(a: seq<(K, V)>, b: seq<(K, V)>)
    requires Unique(Keys(a)) && Unique(Keys(b))
    requires forall k :: HasKey(a, k) ==> !HasKey(b, k)
    ensures Unique(Keys(a + b))
  {
    forall i, j | 0 <= i < j < |a + b|
      ensures Keys(a + b)[i] != Keys(a + b)[j]
    {
      if i < |a| && j >= |a| {
        assert HasKey(a, a[i].0);
        assert (a + b)[j] == b[j - |a|];
        assert HasKey(b, b[j - |a|].0);
      } else if i >= |a| {
        assert Keys(b)[i - |a|] != Keys(b)[j - |a|];
      } else {
        assert Keys(a)[i] != Keys(a)[j];
      }
    }
  }

  /** `d.get(k)` when it is not None: a missing key and an explicit None both give None. */
  function Present(d: seq<(string, Value)>, k: string): (r: Option<Value>)
    ensures r.Some? <==> HasKey(d, k) && Get(d, k) != Some(Null)
    ensures r.Some? ==> Get(d, k) == Some(r.value)
  {
    match Get(d, k)
    case None => None
    case Some(v) => if v.Null? then None else Some(v)
  }

  /** The keys of a dictionary as a set. */
  function KeySet<K(!new), V>(d: seq<(K, V)>): (r: set<K>)
    ensures forall k :: k in r <==> HasKey(d, k)
  {
    set i | 0 <= i < |d| :: d[i].0
  }

  /**
   * `d[k] = v`: an existing key keeps its position and gets the new value; a new
   * key is appended.
   */
  function Put<K(==), V>(d: seq<(K, V)>, k: K, v: V): (r: seq<(K, V)>)
    ensures HasKey(d, k) ==> |r| == |d|
    ensures !HasKey(d, k) ==> r == d + [(k, v)]
    ensures Get(r, k) == Some(v)
  {
    if |d| == 0 then [(k, v)]
    else if d[0].0 == k then [(k, v)] + d[1..]
    else [d[0]] + Put(d[1..], k, v)
  }

  /** Reading back after `d[k] = v`. */
  lemma {:induction false} PutGet<K, V>(d: seq<(K, V)>, k: K, v: V, n: K)
    ensures Get(Put(d, k, v), n) == if n == k then Some(v) else Get(d, n)
    ensures HasKey(Put(d, k, v), n) <==> HasKey(d, n) || n == k
  {
    if |d| > 0 && d[0].0 != k {
      PutGet(d[1..], k, v, n);
    }
  }

  /** Overwriting an existing key keeps the key order. */
  lemma PutKeys<K, V>(d: seq<(K, V)>, k: K, v: V)
    requires HasKey(d, k)
    ensures Keys(Put(d, k, v)) == Keys(d)
  {
    PutSameKeys(d, k, v);
    var p := Put(d, k, v);
    assert forall i :: 0 <= i < |d| ==> Keys(p)[i] == Keys(d)[i];
  }

  /** Overwriting an existing key keeps the length and the key at every position. */
  lemma {:induction false} PutSameKeys<K, V>(d: seq<(K, V)>, k: K, v: V)
    requires HasKey(d, k)
    ensures |Put(d, k, v)| == |d| && forall i :: 0 <= i < |d| ==> Put(d, k, v)[i].0 == d[i].0
  {
    if d[0].0 != k {
      assert HasKey(d[1..], k) by {
        var i :| 0 <= i < |d| && d[i].0 == k;
        assert d[1..][i - 1].0 == k;
      }
      PutSameKeys(d[1..], k, v);
      var q := Put(d[1..], k, v);
      assert Put(d, k, v) == [d[0]] + q;
      forall i | 0 <= i < |d| ensures Put(d, k, v)[i].0 == d[i].0 {
        if i > 0 {
          assert Put(d, k, v)[i] == q[i - 1] && d[i] == d[1..][i - 1];
        }
      }
    } else {
      assert Put(d, k, v) == [(k, v)] + d[1..];
    }
  }

  /** `d[k] = v` keeps the keys of a dictionary distinct. */
  lemma PutUnique<K, V>(d: seq<(K, V)>, k: K, v: V)
    requires Unique(Keys(d))
    ensures Unique(Keys(Put(d, k, v)))
  {
    if HasKey(d, k) {
      PutKeys(d, k, v);
    } else {
      var p := Put(d, k, v);
      assert p == d + [(k, v)];
      forall i, j | 0 <= i < j < |Keys(p)| ensures Keys(p)[i] != Keys(p)[j] {
        assert Keys(p)[i] == p[i].0 == d[i].0;
        if j < |d| {
          assert Keys(p)[j] == d[j].0;
          assert Keys(d)[i] != Keys(d)[j];
        } else {
          assert Keys(p)[j] == k;
        }
      }
    }
  }

  /** Every entry after `d[k] = v` is the new one or an old one. */
  lemma {:induction false} PutMembers<K, V>(d: seq<(K, V)>, k: K, v: V, x: (K, V))
    requires x in Put(d, k, v)
    ensures x == (k, v) || x in d
  {
    if |d| > 0 && d[0].0 != k && x != d[0] {
      assert x in Put(d[1..], k, v);
      PutMembers(d[1..], k, v, x);
    }
  }

  /** `d[k] = v` for each item in turn: later entries overwrite earlier ones, new keys are appended in first-seen order. */
  function PutAll<K(==,!new), V>(d: seq<(K, V)>, items: seq<(K, V)>): (r: seq<(K, V)>)
    ensures forall n :: HasKey(r, n) <==> HasKey(d, n) || HasKey(items, n)
    ensures Unique(Keys(d)) ==> Unique(Keys(r))
    decreases |items|
  {
    if |items| == 0 then d
    else
      var front := items[..|items| - 1];
      var e := items[|items| - 1];
      var p := PutAll(d, front);
      LastSplit(items);
      assert forall n :: HasKey(Put(p, e.0, e.1), n) <==> HasKey(d, n) || HasKey(items, n) by {
        forall n ensures HasKey(Put(p, e.0, e.1), n) <==> HasKey(d, n) || HasKey(items, n) {
          PutGet(p, e.0, e.1, n);
          HasKeyConcat(front, [e], n);
          HasKeySingle([e], n);
        }
      }
      assert Unique(Keys(d)) ==> Unique(Keys(Put(p, e.0, e.1))) by {
        if Unique(Keys(d)) {
          PutUnique(p, e.0, e.1);
        }
      }
      Put(p, e.0, e.1)
  }

  /** With distinct keys among the items, each item's key reads its item's value, and every other key its old value. */
  lemma {:induction false} PutAllGet<K(!new), V>(d: seq<(K, V)>, items: seq<(K, V)>, n: K)
    requires Unique(Keys(items))
    ensures Get(PutAll(d, items), n) == if HasKey(items, n) then Get(items, n) else Get(d, n)
    decreases |items|
  {
    if |items| > 0 {
      var front := items[..|items| - 1];
      var e := items[|items| - 1];
      LastSplit(items);
      forall a, b | 0 <= a < b < |front| ensures Keys(front)[a] != Keys(front)[b] {
        assert Keys(items)[a] != Keys(items)[b];
      }
      assert !HasKey(front, e.0) by {
        forall a | 0 <= a < |front| ensures front[a].0 != e.0 {
          assert Keys(items)[a] != Keys(items)[|items| - 1];
        }
      }
      PutAllGet(d, front, n);
      PutGet(PutAll(d, front), e.0, e.1, n);
      GetConcat(front, [e], n);
      HasKeyConcat(front, [e], n);
      HasKeySingle([e], n);
    }
  }

  /** `dict(items)`: later entries overwrite earlier ones with the same key, in first-seen order. */
  function DictOf<K(==,!new), V>(items: seq<(K, V)>): (r: seq<(K, V)>)
  {
    PutAll([], items)
  }

  /** `dict(items)` only holds entries of items. */
  lemma {:induction false} DictOfMembers<K(!new), V>(items: seq<(K, V)>, x: (K, V))
    requires x in DictOf(items)
    ensures x in items
    decreases |items|
  {
    var n := |items|;
    PutMembers(DictOf(items[..n - 1]), items[n - 1].0, items[n - 1].1, x);
    if x != items[n - 1] {
      DictOfMembers(items[..n - 1], x);
    }
  }

  /** With distinct keys, `dict(items)` is items itself. */
  lemma {:induction false} DictOfDistinct<K(!new), V>(items: seq<(K, V)>)
    requires Unique(Keys(items))
    ensures DictOf(items) == items
    decreases |items|
  {
    var n := |items|;
    if n > 0 {
      var p := items[..n - 1];
      assert Unique(Keys(p)) by {
        assert forall i :: 0 <= i < |p| ==> Keys(p)[i] == Keys(items)[i];
      }
      DictOfDistinct(p);
      var e := items[n - 1];
      assert !HasKey(p, e.0) by {
        forall i | 0 <= i < |p| ensures p[i].0 != e.0 {
          assert Keys(items)[i] != Keys(items)[n - 1];
        }
      }
      calc {
        DictOf(items);
        Put(DictOf(p), e.0, e.1);
        Put(p, e.0, e.1);
        p + [e];
        { LastSplit(items); }
        items;
      }
    }
  }

  function DigitChar(d: nat): char
    requires d < 10
  {
    ('0' as int + d) as char
  }

  predicate IsDigitChar(c: char) { '0' <= c <= '9' }

  /** `str(n)` for a natural number: its decimal digits, without leading zeros. */
  function NatToString(n: nat): (s: string)
    ensures |s| >= 1 && forall i :: 0 <= i < |s| ==> IsDigitChar(s[i])
    ensures n < 10 ==> s == [DigitChar(n)]
  {
    if n < 10 then [DigitChar(n)] else NatToString(n / 10) + [DigitChar(n % 10)]
  }

  // ---------------------------------------------------------------- numbers

  function Abs(x: real): (r: real)
    ensures r >= 0.0 && (r == x || r == -x)
  {
    if x < 0.0 then -x else x
  }

  /** Python `min(a, b)`. */
  function Min(a: real, b: real): (r: real)
    ensures r <= a && r <= b && (r == a || r == b)
  {
    if b < a then b else a
  }

  /** Python `max(a, b)`. */
  function Max(a: real, b: real): (r: real)
    ensures r >= a && r >= b && (r == a || r == b)
  {
    if b > a then b else a
  }

  /** `min(values)`. */
  function SeqMin(s: seq<real>): (m: real)
    requires |s| > 0
    ensures (exists i :: 0 <= i < |s| && s[i] == m) && forall i :: 0 <= i < |s| ==> m <= s[i]
  {
    if |s| == 1 then s[0]
    else
      var m := SeqMin(s[1..]);
      assert forall i :: 1 <= i < |s| ==> s[1..][i - 1] == s[i];
      Min(s[0], m)
  }

  /** `max(values)`. */
  function SeqMax(s: seq<real>): (m: real)
    requires |s| > 0
    ensures (exists i :: 0 <= i < |s| && s[i] == m) && forall i :: 0 <= i < |s| ==> s[i] <= m
  {
    if |s| == 1 then s[0]
    else
      var m := SeqMax(s[1..]);
      assert forall i :: 1 <= i < |s| ==> s[1..][i - 1] == s[i];
      Max(s[0], m)
  }

  /** `max(lo, min(x, hi))`, the clamp idiom the source uses everywhere. */
  function Clamp(x: real, lo: real, hi: real): (r: real)
    ensures lo <= hi ==> lo <= r <= hi
    ensures lo <= x <= hi ==> r == x
  {
    Max(lo, Min(x, hi))
  }

  function Sum(s: seq<real>): real
  {
    if |s| == 0 then 0.0 else s[0] + Sum(s[1..])
  }

  lemma {:induction false} SumAppend(s: seq<real>, x: real)
    ensures Sum(s + [x]) == Sum(s) + x
  {
    if |s| > 0 {
      assert (s + [x])[1..] == s[1..] + [x];
      SumAppend(s[1..], x);
    }
  }

  lemma {:induction false} SumConcat(s: seq<real>, t: seq<real>)
    ensures Sum(s + t) == Sum(s) + Sum(t)
  {
    if |s| > 0 {
      assert (s + t)[0] == s[0] && (s + t)[1..] == s[1..] + t;
      SumConcat(s[1..], t);
    } else {
      assert s + t == t;
    }
  }

  lemma {:induction false} SumPositive(s: seq<real>)
    requires |s| > 0 && forall i :: 0 <= i < |s| ==> s[i] > 0.0
    ensures Sum(s) > 0.0
  {
    if |s| > 1 {
      SumPositive(s[1..]);
    }
  }

  /** numpy `mean` of a non-empty sequence. */
  function Mean(s: seq<real>): real
    requires |s| > 0
  {
    Sum(s) / |s| as real
  }

  /** numpy `var` (population variance); `std` is its square root. */
  function Variance(s: seq<real>): real
    requires |s| > 0
  {
    var m := Mean(s);
    Mean(seq(|s|, i requires 0 <= i < |s| => (s[i] - m) * (s[i] - m)))
  }

  lemma {:induction false} SumBounds(s: seq<real>, lo: real, hi: real)
    requires forall i :: 0 <= i < |s| ==> lo <= s[i] <= hi
    ensures |s| as real * lo <= Sum(s) <= |s| as real * hi
  {
    if |s| > 0 {
      SumBounds(s[1..], lo, hi);
    }
  }

  lemma DivBounds(x: real, n: real, lo: real, hi: real)
    requires n > 0.0 && n * lo <= x <= n * hi
    ensures lo <= x / n <= hi
  {
    assert x / n * n == x;
  }

  /** The mean of values between lo and hi lies between lo and hi. */
  /** A variance, and so a standard deviation's square, is never negative. */
  lemma VarianceNonNegative(s: seq<real>)
    requires |s| > 0
    ensures Variance(s) >= 0.0
  {
    var m := Mean(s);
    var sq := seq(|s|, i requires 0 <= i < |s| => (s[i] - m) * (s[i] - m));
    forall i | 0 <= i < |s| ensures 0.0 <= sq[i] <= SeqMax(sq) {
      var d := s[i] - m;
      assert sq[i] == d * d;
      if d < 0.0 { MulPositive(-d, -d); } else if d > 0.0 { MulPositive(d, d); }
    }
    MeanBounds(sq, 0.0, SeqMax(sq));
  }

  lemma MeanBounds(s: seq<real>, lo: real, hi: real)
    requires |s| > 0
    requires forall i :: 0 <= i < |s| ==> lo <= s[i] <= hi
    ensures lo <= Mean(s) <= hi
  {
    SumBounds(s, lo, hi);
    DivBounds(Sum(s), |s| as real, lo, hi);
  }

  lemma {:induction false} SumAtMost(s: seq<real>, hi: real)
    requires forall i :: 0 <= i < |s| ==> s[i] <= hi
    ensures Sum(s) <= |s| as real * hi
  {
    if |s| > 0 {
      SumAtMost(s[1..], hi);
    }
  }

  /** The mean of values no larger than hi is no larger than hi. */
  lemma MeanAtMost(s: seq<real>, hi: real)
    requires |s| > 0
    requires forall i :: 0 <= i < |s| ==> s[i] <= hi
    ensures Mean(s) <= hi
  {
    SumAtMost(s, hi);
    assert Sum(s) / |s| as real * |s| as real == Sum(s);
  }

  lemma {:induction false} SumNonNegative(s: seq<real>)
    requires forall i :: 0 <= i < |s| ==> s[i] >= 0.0
    ensures Sum(s) >= 0.0
  {
    if |s| > 0 {
      SumNonNegative(s[1..]);
    }
  }

  lemma {:induction false} SumScaled(s: seq<real>, t: real, r: seq<real>)
    requires t != 0.0 && |r| == |s|
    requires forall i :: 0 <= i < |s| ==> r[i] == s[i] / t
    ensures Sum(r) == Sum(s) / t
  {
    if |s| > 0 {
      SumScaled(s[1..], t, r[1..]);
    }
  }

  lemma {:induction false} SumConstant(r: seq<real>, c: real)
    requires forall i :: 0 <= i < |r| ==> r[i] == c
    ensures Sum(r) == |r| as real * c
  {
    if |r| > 0 {
      SumConstant(r[1..], c);
    }
  }

  lemma MulPositive(a: real, b: real)
    requires a > 0.0 && b > 0.0
    ensures a * b > 0.0
  {
  }

  lemma MulNonNegative(a: real, b: real)
    requires a >= 0.0 && b >= 0.0
    ensures a * b >= 0.0
  {
  }

  lemma ScaleMonotone(a: real, b: real, k: real)
    requires a <= b && k >= 0.0
    ensures a * k <= b * k
  {
    MulNonNegative(b - a, k);
    assert (b - a) * k == b * k - a * k;
  }

  lemma ReciprocalAntitone(x: real, y: real)
    requires 0.0 < x <= y
    ensures 1.0 / x >= 1.0 / y
  {
    var a, b := 1.0 / x, 1.0 / y;
    assert a * x == 1.0 && b * y == 1.0;
    MulPositive(a, b);
    MulNonNegative(a * b, y - x);
    assert (a * b) * (y - x) == a * (b * y) - b * (a * x);
  }

  lemma DivMul(x: real, t: real)
    requires t != 0.0
    ensures x / t * t == x
  {
  }

  /** 10 to the power d. */
  function Pow10(d: nat): (r: nat)
    ensures r >= 1
  {
    if d == 0 then 1 else 10 * Pow10(d - 1)
  }

  /**
   * `round(x, d)`: to the nearest multiple of 10^-d, ties to even, on exact
   * reals.
   */
  function Round(x: real, d: nat): real
  {
    RoundAt(x, Pow10(d) as real)
  }

  /** x to the nearest multiple of 1 / scale. */
  function RoundAt(x: real, scale: real): real
    requires scale > 0.0
  {
    RoundUnits(x * scale) as real / scale
  }

  /** The whole number nearest to y, ties to the even one. */
  function RoundUnits(y: real): int
  {
    var f := y.Floor;
    var frac := y - f as real;
    if frac > 0.5 then f + 1
    else if frac < 0.5 then f
    else if f % 2 == 0 then f else f + 1
  }

  /** `f"{x:.2f}"` on an exact real: the value rounded to two places, with a sign when x is negative. */
  function Fixed2(x: real): (s: string)
    ensures |s| >= 4 && s[|s| - 3] == '.'
  {
    var n := (Round(x, 2) * 100.0).Floor;
    var m: nat := if n < 0 then -n else n;
    (if x < 0.0 then "-" else "") + NatToString(m / 100) + "." + [DigitChar((m % 100) / 10), DigitChar(m % 10)]
  }

  /** `str(n)` for an integer. */
  function IntToString(n: int): (s: string)
    ensures |s| >= 1
  {
    if n < 0 then "-" + NatToString(-n) else NatToString(n)
  }

  lemma RoundNonNegative(x: real, d: nat)
    requires x >= 0.0
    ensures Round(x, d) >= 0.0
  {
    var scale := Pow10(d) as real;
    assert x * scale >= 0.0;
  }

  /** Rounding keeps the order of its arguments. */
  lemma RoundMonotone(x: real, y: real, d: nat)
    requires x <= y
    ensures Round(x, d) <= Round(y, d)
  {
    RoundAtMonotone(x, y, Pow10(d) as real);
  }

  lemma RoundAtMonotone(x: real, y: real, scale: real)
    requires x <= y && scale > 0.0
    ensures RoundAt(x, scale) <= RoundAt(y, scale)
  {
    ScaleMonotone(x, y, scale);
    RoundUnitsMonotone(x * scale, y * scale);
    DivMonotone(RoundUnits(x * scale) as real, RoundUnits(y * scale) as real, scale);
  }

  lemma RoundUnitsMonotone(a: real, b: real)
    requires a <= b
    ensures RoundUnits(a) <= RoundUnits(b)
  {
    var fa, fb := a.Floor, b.Floor;
    assert fa as real <= a <= b < fb as real + 1.0;
  }

  lemma DivMonotone(a: real, b: real, s: real)
    requires a <= b && s > 0.0
    ensures a / s <= b / s
  {
    ScaleMonotone(a, b, 1.0 / s);
  }

  /** A whole number is its own rounding. */
  lemma RoundWhole(k: int, d: nat)
    ensures Round(k as real, d) == k as real
  {
    RoundAtWhole(k, Pow10(d));
  }

  lemma RoundAtWhole(k: int, p: nat)
    requires p >= 1
    ensures RoundAt(k as real, p as real) == k as real
  {
    CastProduct(k, p);
    RoundAtExact(k as real, p as real, k * p);
    DivProduct(k as real, p as real);
  }

  /** A value that scales to a whole number m rounds to m over the scale. */
  lemma RoundAtExact(x: real, scale: real, m: int)
    requires scale > 0.0 && x * scale == m as real
    ensures RoundAt(x, scale) == m as real / scale
  {
    RoundUnitsWhole(m);
  }

  lemma CastProduct(k: int, p: int)
    ensures k as real * p as real == (k * p) as real
  {
  }

  lemma RoundUnitsWhole(m: int)
    ensures RoundUnits(m as real) == m
  {
    assert (m as real).Floor == m;
  }

  lemma DivProduct(a: real, b: real)
    requires b != 0.0
    ensures a * b / b == a
  {
  }

  /**
   * `max(d.items(), key=value)`: the index of the first entry of maximal
   * value, as Python's `max` keeps the earliest of equal maxima.
   */
  function ArgMax<K>(d: seq<(K, real)>): (i: nat)
    requires |d| > 0
    ensures i < |d| && FirstMaximum(d, i)
  {
    if |d| == 1 then 0
    else
      var b := ArgMax(d[..|d| - 1]);
      assert forall j :: 0 <= j < |d| - 1 ==> d[..|d| - 1][j] == d[j];
      if d[|d| - 1].1 > d[b].1 then |d| - 1 else b
  }

  /** Entry i holds the first maximal value of d. */
  predicate FirstMaximum<K>(d: seq<(K, real)>, i: nat)
    requires i < |d|
  {
    (forall j :: 0 <= j < |d| ==> d[j].1 <= d[i].1)
    && (forall j :: 0 <= j < i ==> d[j].1 < d[i].1)
  }

  // ------------------------------------------------------------- counting

  /** The number of occurrences of x in s. */
  function Count<T(==)>(s: seq<T>, x: T): nat
    decreases |s|
  {
    if |s| == 0 then 0 else Count(s[..|s| - 1], x) + (if s[|s| - 1] == x then 1 else 0)
  }

  /** One step of the counting loop: `c[x] = c.get(x, 0) + 1`. */
  function Bump<T(==)>(c: seq<(T, int)>, x: T): seq<(T, int)>
  {
    Put(c, x, GetOr(c, x, 0) + 1)
  }

  lemma BumpUnique<T>(c: seq<(T, int)>, x: T)
    requires Unique(Keys(c))
    ensures Unique(Keys(Bump(c, x)))
  {
    var p := Put(c, x, GetOr(c, x, 0) + 1);
    PutUnique(c, x, GetOr(c, x, 0) + 1);
    assert Bump(c, x) == p;
  }

  /** Reading back after a count step. */
  lemma BumpGet<T>(c: seq<(T, int)>, x: T, y: T)
    ensures GetOr(Bump(c, x), y, 0) == GetOr(c, y, 0) + (if y == x then 1 else 0)
    ensures HasKey(Bump(c, x), y) <==> HasKey(c, y) || y == x
  {
    PutGet(c, x, GetOr(c, x, 0) + 1, y);
  }

  /**
   * The counting loop over s: one entry per distinct element, in order of
   * first occurrence.
   */
  function Counts<T(==)>(s: seq<T>): seq<(T, int)>
    decreases |s|
  {
    if |s| == 0 then [] else Bump(Counts(s[..|s| - 1]), s[|s| - 1])
  }

  /** Each element's entry holds its number of occurrences (absent ones read 0). */
  lemma {:induction false} CountsValue<T>(s: seq<T>, x: T)
    decreases |s|
    ensures GetOr(Counts(s), x, 0) == Count(s, x)
  {
    if |s| > 0 {
      CountsValue(s[..|s| - 1], x);
      BumpGet(Counts(s[..|s| - 1]), s[|s| - 1], x);
    }
  }

  /** Exactly the elements of s have an entry. */
  lemma {:induction false} CountsHas<T>(s: seq<T>, x: T)
    decreases |s|
    ensures HasKey(Counts(s), x) <==> x in s
  {
    if |s| > 0 {
      var init := s[..|s| - 1];
      CountsHas(init, x);
      BumpGet(Counts(init), s[|s| - 1], x);
      LastSplit(s);
    }
  }

  /** The sum of the counts in a count table. */
  function TotalCount<T>(c: seq<(T, int)>): int
  {
    if |c| == 0 then 0 else TotalCount(c[..|c| - 1]) + c[|c| - 1].1
  }

  lemma {:induction false} TotalCountAppend<T>(c: seq<(T, int)>, e: (T, int))
    ensures TotalCount(c + [e]) == TotalCount(c) + e.1
  {
    assert (c + [e])[..|c|] == c;
  }

  /** Overwriting one entry of a table with distinct keys changes the total by the difference. */
  lemma {:induction false} TotalCountPut<T>(c: seq<(T, int)>, x: T, v: int)
    requires Unique(Keys(c)) && HasKey(c, x)
    ensures TotalCount(Put(c, x, v)) == TotalCount(c) - GetOr(c, x, 0) + v
    decreases |c|
  {
    var init, last := c[..|c| - 1], c[|c| - 1];
    LastSplit(c);
    UniqueFront(c);
    if last.0 == x {
      TotalCountPutLast(init, last, x, v);
    } else {
      HasKeyFront(c, x);
      TotalCountPut(init, x, v);
      TotalCountPutFront(init, last, x, v);
    }
  }

  /** The entries before the last of a table with distinct keys have distinct keys, none of them the last one's. */
  lemma UniqueFront<K, V>(c: seq<(K, V)>)
    requires |c| > 0 && Unique(Keys(c))
    ensures Unique(Keys(c[..|c| - 1])) && !HasKey(c[..|c| - 1], c[|c| - 1].0)
  {
    var init := c[..|c| - 1];
    forall i, j | 0 <= i < j < |init| ensures Keys(init)[i] != Keys(init)[j] { assert Keys(c)[i] != Keys(c)[j]; }
    forall i | 0 <= i < |init| ensures init[i].0 != c[|c| - 1].0 { assert Keys(c)[i] != Keys(c)[|c| - 1]; }
  }

  /** A key other than the last one's is among the entries before the last. */
  lemma HasKeyFront<K, V>(c: seq<(K, V)>, x: K)
    requires |c| > 0 && HasKey(c, x) && c[|c| - 1].0 != x
    ensures HasKey(c[..|c| - 1], x)
  {
    var i :| 0 <= i < |c| && c[i].0 == x;
    assert c[..|c| - 1][i].0 == x;
  }

  /** Overwriting the last entry, whose key is new to the entries before it. */
  lemma TotalCountPutLast<T>(init: seq<(T, int)>, last: (T, int), x: T, v: int)
    requires last.0 == x && !HasKey(init, x)
    ensures TotalCount(Put(init + [last], x, v)) == TotalCount(init + [last]) - GetOr(init + [last], x, 0) + v
  {
    PutSplitLast(init, last, x, v);
    TotalCountAppend(init, (x, v));
    TotalCountAppend(init, last);
    GetOrLast(init, last, x, 0);
  }

  /** Overwriting an entry before the last one, given the total for the entries before it. */
  lemma TotalCountPutFront<T>(init: seq<(T, int)>, last: (T, int), x: T, v: int)
    requires last.0 != x && HasKey(init, x)
    requires TotalCount(Put(init, x, v)) == TotalCount(init) - GetOr(init, x, 0) + v
    ensures TotalCount(Put(init + [last], x, v)) == TotalCount(init + [last]) - GetOr(init + [last], x, 0) + v
  {
    PutSplitFront(init, last, x, v);
    TotalCountAppend(Put(init, x, v), last);
    TotalCountAppend(init, last);
    GetOrLast(init, last, x, 0);
  }

  /** `d[k] = v` on a table whose last entry is the only one with key k replaces that entry. */
  lemma {:induction false} PutSplitLast<K, V>(init: seq<(K, V)>, last: (K, V), k: K, v: V)
    requires last.0 == k && !HasKey(init, k)
    ensures Put(init + [last], k, v) == init + [(k, v)]
    decreases |init|
  {
    if |init| > 0 {
      assert (init + [last])[1..] == init[1..] + [last];
      assert !HasKey(init[1..], k) by {
        forall i | 0 <= i < |init[1..]| ensures init[1..][i].0 != k { assert init[i + 1].0 != k; }
      }
      PutSplitLast(init[1..], last, k, v);
    }
  }

  /** `d[k] = v` on a table with a last entry of another key updates the entries before it. */
  lemma {:induction false} PutSplitFront<K, V>(init: seq<(K, V)>, last: (K, V), k: K, v: V)
    requires last.0 != k && HasKey(init, k)
    ensures Put(init + [last], k, v) == Put(init, k, v) + [last]
    decreases |init|
  {
    assert (init + [last])[1..] == init[1..] + [last];
    if init[0].0 != k {
      assert HasKey(init[1..], k) by {
        var i :| 0 <= i < |init| && init[i].0 == k;
        assert init[1..][i - 1].0 == k;
      }
      PutSplitFront(init[1..], last, k, v);
    }
  }

  /** Reading a key from a table with a last entry. */
  lemma {:induction false} GetOrLast<K, V>(init: seq<(K, V)>, last: (K, V), k: K, d: V)
    ensures last.0 == k && !HasKey(init, k) ==> GetOr(init + [last], k, d) == last.1
    ensures last.0 != k ==> GetOr(init + [last], k, d) == GetOr(init, k, d)
    decreases |init|
  {
    if |init| > 0 && init[0].0 != k {
      assert (init + [last])[1..] == init[1..] + [last];
      assert !HasKey(init, k) ==> !HasKey(init[1..], k) by {
        if HasKey(init[1..], k) {
          var i :| 0 <= i < |init[1..]| && init[1..][i].0 == k;
          assert init[i + 1].0 == k;
        }
      }
      GetOrLast(init[1..], last, k, d);
    }
  }

  /** The counts of a sequence add up to its length. */
  lemma {:induction false} CountsTotal<T>(s: seq<T>)
    decreases |s|
    ensures TotalCount(Counts(s)) == |s|
  {
    if |s| > 0 {
      var init := s[..|s| - 1];
      var x := s[|s| - 1];
      CountsTotal(init);
      CountsUnique(init);
      if HasKey(Counts(init), x) {
        TotalCountPut(Counts(init), x, GetOr(Counts(init), x, 0) + 1);
      } else {
        TotalCountAppend(Counts(init), (x, GetOr(Counts(init), x, 0) + 1));
      }
    }
  }

  /** Each element has one entry. */
  lemma {:induction false} CountsUnique<T>(s: seq<T>)
    decreases |s|
    ensures Unique(Keys(Counts(s)))
  {
    if |s| > 0 {
      CountsUnique(s[..|s| - 1]);
      BumpUnique(Counts(s[..|s| - 1]), s[|s| - 1]);
    }
  }

  lemma {:induction false} CountAbsent<T>(s: seq<T>, x: T)
    requires x !in s
    decreases |s|
    ensures Count(s, x) == 0
  {
    if |s| > 0 {
      assert s[..|s| - 1] <= s;
      CountAbsent(s[..|s| - 1], x);
    }
  }

  /** The counts as reals, for `max(counts.items(), key=value)`. */
  function RealCounts<T>(c: seq<(T, int)>): (r: seq<(T, real)>)
    ensures |r| == |c| && forall i :: 0 <= i < |c| ==> r[i] == (c[i].0, c[i].1 as real)
  {
    seq(|c|, i requires 0 <= i < |c| => (c[i].0, c[i].1 as real))
  }

  /** `max(counts.items(), key=count)[0]`: the first-seen element of maximal count. */
  function MostCommon<T(==)>(s: seq<T>): T
    requires |s| > 0
  {
    var c := Counts(s);
    CountsHas(s, s[0]);
    c[ArgMax(RealCounts(c))].0
  }

  /** The most common element occurs in s, and no element occurs more often. */
  lemma MostCommonIsMode<T>(s: seq<T>, x: T)
    requires |s| > 0
    ensures MostCommon(s) in s
    ensures Count(s, x) <= Count(s, MostCommon(s))
  {
    var c := Counts(s);
    CountsHas(s, s[0]);
    var i := ArgMax(RealCounts(c));
    var m := c[i].0;
    CountsUnique(s);
    UniqueGetAt(c, i);
    CountsHas(s, m);
    CountsValue(s, m);
    CountsValue(s, x);
    if HasKey(c, x) {
      var j :| 0 <= j < |c| && c[j].0 == x;
      UniqueGetAt(c, j);
      assert RealCounts(c)[j].1 <= RealCounts(c)[i].1;
    }
  }

  // ------------------------------------------------------- bounded histories

  /**
   * `h.append(x)` followed by `if len(h) > cap: h = h[-cap:]`: the cap most
   * recent entries, the new one last.
   */
  function AppendCapped<T>(h: seq<T>, x: T, cap: nat): (r: seq<T>)
    requires cap > 0
    ensures |r| == if |h| + 1 > cap then cap else |h| + 1
    ensures r == (h + [x])[|h| + 1 - |r|..]
    ensures r[|r| - 1] == x
  {
    var h' := h + [x];
    if |h'| > cap then h'[|h'| - cap..] else h'
  }

  /** A history capped on every append always holds the last `cap` entries of everything appended. */
  lemma CappedSuffix<T>(h: seq<T>, x: T, cap: nat)
    requires cap > 0
    ensures AppendCapped(TakeLast(h, cap), x, cap) == TakeLast(h + [x], cap)
  {
    var k := TakeLast(h, cap);
    if |h| >= cap {
      assert k + [x] == (h + [x])[|h| - cap..];
    }
  }

  /**
   * The positions i (1 <= i < |s|) at which s changes, that is s[i-1] != s[i],
   * in increasing order: the scan of adjacent pairs the transition reports make.
   */
  function ChangeIndices<S(==)>(s: seq<S>): (r: seq<nat>)
    ensures forall k :: 0 <= k < |r| ==> 1 <= r[k] < |s| && s[r[k] - 1] != s[r[k]]
    ensures forall k, l :: 0 <= k < l < |r| ==> r[k] < r[l]
  {
    if |s| < 2 then []
    else
      var t := s[..|s| - 1];
      var c := ChangeIndices(t);
      assert forall k :: 0 <= k < |c| ==> s[c[k] - 1] == t[c[k] - 1] && s[c[k]] == t[c[k]];
      c + (if s[|s| - 2] != s[|s| - 1] then [|s| - 1] else [])
  }

  /** Every change is reported: each i with s[i-1] != s[i] is a change position. */
  lemma {:induction false} ChangeIndicesComplete<S>(s: seq<S>)
    decreases |s|
    ensures forall i :: 1 <= i < |s| && s[i - 1] != s[i] ==> i in ChangeIndices(s)
  {
    if |s| >= 2 {
      var t := s[..|s| - 1];
      ChangeIndicesComplete(t);
      forall i | 1 <= i < |s| && s[i - 1] != s[i]
        ensures i in ChangeIndices(s)
      {
        if i < |s| - 1 {
          assert t[i - 1] == s[i - 1] && t[i] == s[i];
        }
      }
    }
  }

  /** With no change, every element equals the first. */
  lemma {:induction false} ChangeIndicesNone<S>(s: seq<S>)
    requires |ChangeIndices(s)| == 0
    decreases |s|
    ensures forall i :: 0 <= i < |s| ==> s[i] == s[0]
  {
    if |s| >= 2 {
      var t := s[..|s| - 1];
      ChangeIndicesNone(t);
      assert forall i :: 0 <= i < |t| ==> t[i] == s[i];
    }
  }

  /** The first change starts from s[0] and the last one ends at the final value. */
  lemma {:induction false} ChangeIndicesEnds<S>(s: seq<S>)
    decreases |s|
    ensures var c := ChangeIndices(s);
      |c| > 0 ==> s[c[0] - 1] == s[0] && s[c[|c| - 1]] == s[|s| - 1]
  {
    if |s| >= 2 {
      var t := s[..|s| - 1];
      ChangeIndicesEnds(t);
      var ct := ChangeIndices(t);
      var c := ChangeIndices(s);
      assert c == ct + (if s[|s| - 2] != s[|s| - 1] then [|s| - 1] else []);
      assert forall i :: 0 <= i < |t| ==> t[i] == s[i];
      if |ct| == 0 && |c| > 0 {
        ChangeIndicesNone(t);
        assert s[|s| - 2] == t[|t| - 1];
      }
    }
  }

  /**
   * Between two changes the value stays put: the value after the k-th change
   * is the value just before the next one.
   */
  lemma {:induction false} ChangeIndicesChain<S>(s: seq<S>, k: nat)
    requires k + 1 < |ChangeIndices(s)|
    decreases |s|
    ensures var c := ChangeIndices(s); s[c[k]] == s[c[k + 1] - 1]
  {
    var t := s[..|s| - 1];
    var ct := ChangeIndices(t);
    var c := ChangeIndices(s);
    assert c == ct + (if s[|s| - 2] != s[|s| - 1] then [|s| - 1] else []);
    if k + 1 < |ct| {
      ChangeIndicesChain(t, k);
      assert c[k] == ct[k] && c[k + 1] == ct[k + 1];
      assert s[c[k]] == t[ct[k]];
      assert s[c[k + 1] - 1] == t[ct[k + 1] - 1];
    } else {
      ChangeIndicesEnds(t);
      assert c[k] == ct[|ct| - 1];
      assert s[c[k]] == t[ct[|ct| - 1]];
      assert c[k + 1] - 1 == |t| - 1;
    }
  }

  // ------------------------------------------------------- string sorting

  /** Python's order on strings: by code point, a prefix first. */
  predicate StrLe(a: string, b: string)
    decreases |a|
  {
    |a| == 0 || (|b| > 0 && (a[0] < b[0] || (a[0] == b[0] && StrLe(a[1..], b[1..]))))
  }

  lemma {:induction false} StrLeTotal(a: string, b: string)
    ensures StrLe(a, b) || StrLe(b, a)
    decreases |a|
  {
    if |a| > 0 && |b| > 0 && a[0] == b[0] {
      StrLeTotal(a[1..], b[1..]);
    }
  }

  lemma {:induction false} StrLeTrans(a: string, b: string, c: string)
    requires StrLe(a, b) && StrLe(b, c)
    ensures StrLe(a, c)
    decreases |a|
  {
    if |a| > 0 && a[0] == b[0] && b[0] == c[0] {
      StrLeTrans(a[1..], b[1..], c[1..]);
    }
  }

  predicate StrSorted(s: seq<string>)
  {
    forall i, j :: 0 <= i < j < |s| ==> StrLe(s[i], s[j])
  }

  function InsertStr(x: string, s: seq<string>): (r: seq<string>)
    ensures |r| == |s| + 1
  {
    if s == [] || StrLe(x, s[0]) then [x] + s else [s[0]] + InsertStr(x, s[1..])
  }

  lemma {:induction false} InsertStrMultiset(x: string, s: seq<string>)
    ensures multiset(InsertStr(x, s)) == multiset(s) + multiset{x}
  {
    if !(s == [] || StrLe(x, s[0])) {
      InsertStrMultiset(x, s[1..]);
      assert s == [s[0]] + s[1..];
    }
  }

  lemma StrSortedFront(a: string, rest: seq<string>)
    requires StrSorted(rest) && forall y :: y in rest ==> StrLe(a, y)
    ensures StrSorted([a] + rest)
  {
    forall i, j | 0 <= i < j < |rest| + 1
      ensures StrLe(([a] + rest)[i], ([a] + rest)[j])
    {
      if i > 0 {
        assert ([a] + rest)[i] == rest[i - 1];
      }
      assert ([a] + rest)[j] == rest[j - 1] && rest[j - 1] in rest;
    }
  }

  lemma {:induction false} InsertStrSorted(x: string, s: seq<string>)
    requires StrSorted(s)
    ensures StrSorted(InsertStr(x, s))
  {
    if s == [] {
    } else if StrLe(x, s[0]) {
      forall y | y in s ensures StrLe(x, y) {
        var k :| 0 <= k < |s| && s[k] == y;
        if k > 0 { StrLeTrans(x, s[0], y); }
      }
      StrSortedFront(x, s);
    } else {
      var rest := InsertStr(x, s[1..]);
      InsertStrSorted(x, s[1..]);
      InsertStrMultiset(x, s[1..]);
      StrLeTotal(x, s[0]);
      forall y | y in rest ensures StrLe(s[0], y) {
        assert y in multiset(rest);
        if y != x {
          assert y in multiset(s[1..]);
          var k :| 0 <= k < |s[1..]| && s[1..][k] == y;
          assert s[k + 1] == y;
        }
      }
      StrSortedFront(s[0], rest);
    }
  }

  /** `sorted(strings)`. */
  function SortStrings(s: seq<string>): (r: seq<string>)
    ensures StrSorted(r) && multiset(r) == multiset(s) && |r| == |s|
  {
    if s == [] then []
    else
      var t := SortStrings(s[1..]);
      InsertStrMultiset(s[0], t);
      InsertStrSorted(s[0], t);
      assert s == [s[0]] + s[1..];
      InsertStr(s[0], t)
  }
}
