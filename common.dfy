/**
 * Shared vocabulary of the model: optional values, results carrying an error
 * message (the source's thrown `Error`s), JavaScript truthiness of optional
 * strings, and the decimal rendering of integers used in keys and references
 * (`user-<telegramId>`, `withdrawal-<userId>-<timestamp>`, `tx_<timestamp>_...`).
 */
module Common {

  datatype Option<T> = None | Some(value: T)

  /** `Err(message)` stands for an `Error` thrown with that message. */
  datatype Result<T> = Ok(value: T) | Err(message: string)

  /** JavaScript truthiness of an optional string: present and not empty. */
  predicate Truthy(s: Option<string>)
  {
    s.Some? && s.value != ""
  }

  /** The value of an optional string, with `undefined` read as "". */
  function OrEmpty(s: Option<string>): string
  {
    if s.Some? then s.value else ""
  }

  /** The placeholder owner used by the ledger and withdrawal defaults. */
  const DefaultUser: string := "default-user"
  const Etb: string := "ETB"

  const MinuteMs: int := 60 * 1000
  const DayMs: int := 24 * 60 * MinuteMs

  predicate IsDigit(c: char)
  {
    '0' <= c <= '9'
  }

  function DigitChar(d: nat): (c: char)
    requires d < 10
    ensures IsDigit(c) && c as int - '0' as int == d
  {
    "0123456789"[d]
  }

  /** JavaScript's rendering of a non-negative integer in base 10. */
  function NatToString(n: nat): (s: string)
    ensures |s| > 0
    ensures forall i :: 0 <= i < |s| ==> IsDigit(s[i])
    ensures n >= 10 ==> |s| >= 2
    decreases n
  {
    if n < 10 then [DigitChar(n)] else NatToString(n / 10) + [DigitChar(n % 10)]
  }

  /** JavaScript's rendering of an integer in base 10 (`${n}`). */
  function IntToString(i: int): string
  {
    if i < 0 then "-" + NatToString(-i) else NatToString(i)
  }

  /** The ledger key the bot uses for a chat user (TelegramBotController.ts:122,155). */
  function UserKey(telegramId: int): string
  {
    "user-" + IntToString(telegramId)
  }

  /** Distinct numbers are rendered as distinct strings. */
  lemma {:induction false} NatToStringInjective(a: nat, b: nat)
    ensures NatToString(a) == NatToString(b) ==> a == b
    decreases a
  {
    if NatToString(a) == NatToString(b) {
      var s := NatToString(a);
      if a < 10 && b < 10 {
        assert DigitChar(a) == s[0] == DigitChar(b);
      } else if a >= 10 && b >= 10 {
        var pa, pb := NatToString(a / 10), NatToString(b / 10);
        assert s == pa + [DigitChar(a % 10)];
        assert s == pb + [DigitChar(b % 10)];
        assert |pa| == |pb|;
        assert DigitChar(a % 10) == s[|s| - 1] == DigitChar(b % 10);
        assert pa == s[..|s| - 1] == pb;
        NatToStringInjective(a / 10, b / 10);
      }
    }
  }

  lemma {:induction false} IntToStringInjective(a: int, b: int)
    ensures IntToString(a) == IntToString(b) ==> a == b
  {
    if IntToString(a) == IntToString(b) {
      SameRenderingSameSign(a, b);
      if a < 0 {
        var x: nat, y: nat := -a, -b;
        IntToStringTail(a, x);
        IntToStringTail(b, y);
        NatToStringInjective(x, y);
      } else {
        NatToStringInjective(a, b);
      }
    }
  }

  /** After the minus sign, a negative number's rendering is that of its magnitude. */
  lemma IntToStringTail(i: int, n: nat)
    requires i < 0 && n == -i
    ensures IntToString(i)[1..] == NatToString(n)
  {
    IntToStringNegative(i, n);
    SuffixOfAppend("-", NatToString(n));
  }

  lemma IntToStringNegative(i: int, n: nat)
    requires i < 0 && n == -i
    ensures IntToString(i) == "-" + NatToString(n)
  {
  }

  lemma SameRenderingSameSign(a: int, b: int)
    requires IntToString(a) == IntToString(b)
    ensures (a < 0) == (b < 0)
  {
    IntToStringSign(a);
    IntToStringSign(b);
  }

  /** The rendering starts with a minus sign exactly for negative numbers. */
  lemma IntToStringSign(i: int)
    ensures |IntToString(i)| > 0 && (IntToString(i)[0] == '-' <==> i < 0)
  {
    if i >= 0 {
      assert IsDigit(NatToString(i)[0]);
    }
  }

  /** Two chat users never share a ledger key. */
  lemma UserKeyInjective(a: int, b: int)
    ensures UserKey(a) == UserKey(b) ==> a == b
  {
    if UserKey(a) == UserKey(b) {
      assert IntToString(a) == UserKey(a)[5..] == UserKey(b)[5..] == IntToString(b);
      IntToStringInjective(a, b);
    }
  }

  /** No chat user's ledger key is the placeholder owner `default-user`. */
  lemma UserKeyIsNotDefaultUser(telegramId: int)
    ensures UserKey(telegramId) != DefaultUser
  {
    assert UserKey(telegramId)[0] == 'u' != 'd' == DefaultUser[0];
  }

  /** The prefix one element longer is the prefix followed by that element. */
  lemma PrefixSnoc<T>(s: seq<T>, i: nat)
    requires i < |s|
    ensures s[..i + 1] == s[..i] + [s[i]]
  {
  }

  /** A prefix of `a` is the same prefix of `a` followed by anything. */
  lemma PrefixOfAppend<T>(a: seq<T>, b: seq<T>, k: nat)
    requires k <= |a|
    ensures (a + b)[..k] == a[..k]
  {
  }

  /** A prefix of `a + b` reaching into `b` is `a` followed by a prefix of `b`. */
  lemma PrefixPastAppend<T>(a: seq<T>, b: seq<T>, k: nat)
    requires k <= |b|
    ensures (a + b)[..|a| + k] == a + b[..k]
  {
  }

  /** What follows `a` in `a + b` is `b`. */
  lemma SuffixOfAppend<T>(a: seq<T>, b: seq<T>)
    ensures (a + b)[|a|..] == b
  {
  }

  /** A second update of the same key overrides the first. */
  lemma UpdateTwice<K, V>(m: map<K, V>, k: K, a: V, b: V)
    ensures m[k := a][k := b] == m[k := b]
  {
  }

  /** Keeps, in order, the elements of `s` that satisfy `keep`. */
  function Filter<T>(s: seq<T>, keep: T -> bool): (r: seq<T>)
    ensures |r| <= |s|
    ensures forall x :: x in r ==> x in s && keep(x)
    ensures forall x :: x in s && keep(x) ==> x in r
  {
    if s == [] then []
    else if keep(s[0]) then [s[0]] + Filter(s[1..], keep)
    else Filter(s[1..], keep)
  }

  /** The first `n` elements of `s` (JavaScript's `slice(0, n)` / Mongo's `limit(n)`). */
  function Take<T>(s: seq<T>, n: nat): (r: seq<T>)
    ensures |r| == if |s| < n then |s| else n
    ensures r == s[..|r|]
  {
    if |s| <= n then s else s[..n]
  }

  function Reverse<T>(s: seq<T>): (r: seq<T>)
    ensures |r| == |s|
    ensures forall i :: 0 <= i < |s| ==> r[i] == s[|s| - 1 - i]
  {
    if s == [] then [] else Reverse(s[1..]) + [s[0]]
  }

  /** The values of `keys` in `m`, in the order of `keys`. */
  function Lookup<K, V>(m: map<K, V>, keys: seq<K>): (r: seq<V>)
    requires forall i :: 0 <= i < |keys| ==> keys[i] in m
    ensures |r| == |keys| && forall i :: 0 <= i < |keys| ==> r[i] == m[keys[i]]
  {
    if keys == [] then [] else Lookup(m, keys[..|keys| - 1]) + [m[keys[|keys| - 1]]]
  }

  /** Looking up keys on which two maps agree gives the same values. */
  lemma {:induction false} LookupFrame<K, V>(m: map<K, V>, m': map<K, V>, keys: seq<K>)
    requires forall i :: 0 <= i < |keys| ==> keys[i] in m && keys[i] in m' && m[keys[i]] == m'[keys[i]]
    ensures Lookup(m, keys) == Lookup(m', keys)
  {
    if keys != [] {
      LookupFrame(m, m', keys[..|keys| - 1]);
    }
  }

  /** Adding a new key at the end keeps the earlier values and adds the new one last. */
  lemma LookupAppend<K, V>(m: map<K, V>, keys: seq<K>, k: K, v: V)
    requires forall i :: 0 <= i < |keys| ==> keys[i] in m && keys[i] != k
    ensures Lookup(m[k := v], keys + [k]) == Lookup(m, keys) + [v]
  {
    assert (keys + [k])[..|keys|] == keys;
    LookupFrame(m, m[k := v], keys);
  }

  /** An element of a newest-first filtered view passes the filter and is the value of one of the keys. */
  lemma ViewedIsStored<K, V>(m: map<K, V>, keys: seq<K>, keep: V -> bool, n: nat, v: V)
    requires forall i :: 0 <= i < |keys| ==> keys[i] in m
    requires v in Take(Filter(Reverse(Lookup(m, keys)), keep), n)
    ensures keep(v) && exists j :: 0 <= j < |keys| && m[keys[j]] == v
  {
    var looked := Lookup(m, keys);
    ViewedIsListed(looked, keep, n, v);
    var j :| 0 <= j < |looked| && looked[j] == v;
    assert m[keys[j]] == v;
  }

  /** An element of a newest-first filtered view of `s` passes the filter and is in `s`. */
  lemma ViewedIsListed<T>(s: seq<T>, keep: T -> bool, n: nat, v: T)
    requires v in Take(Filter(Reverse(s), keep), n)
    ensures keep(v) && v in s
  {
    var kept := Filter(Reverse(s), keep);
    var t := Take(kept, n);
    assert t == kept[..|t|];
    assert v in kept;
    var i :| 0 <= i < |s| && Reverse(s)[i] == v;
    assert s[|s| - 1 - i] == v;
  }

  /** The element added last comes first in a newest-first filtered view that keeps it. */
  lemma NewestKeptFirst<T>(s: seq<T>, x: T, keep: T -> bool, n: nat)
    requires keep(x) && n > 0
    ensures var v := Take(Filter(Reverse(s + [x]), keep), n);
      v != [] && v[0] == x
  {
    var rs := Reverse(s + [x]);
    assert rs[0] == x;
    assert rs == [x] + rs[1..];
  }

  /** Key `a` stands after key `c` in `keys`: it was created later. */
  predicate LaterIn<K(==)>(keys: seq<K>, a: K, c: K)
  {
    exists p, q :: 0 <= q < p < |keys| && keys[p] == a && keys[q] == c
  }

  /** The positions of `s` that `Filter` keeps, in increasing order. */
  function KeptPositions<T>(s: seq<T>, keep: T -> bool): (idx: seq<nat>)
    ensures |idx| == |Filter(s, keep)|
  {
    if s == [] then []
    else if keep(s[0]) then [0] + Shift(KeptPositions(s[1..], keep))
    else Shift(KeptPositions(s[1..], keep))
  }

  /** Each kept position lies in `s` and holds the element `Filter` keeps at that place. */
  lemma {:induction false} KeptPositionsHold<T>(s: seq<T>, keep: T -> bool)
    ensures forall i :: 0 <= i < |KeptPositions(s, keep)| ==>
      KeptPositions(s, keep)[i] < |s| && Filter(s, keep)[i] == s[KeptPositions(s, keep)[i]]
  {
    if s != [] {
      KeptPositionsHold(s[1..], keep);
      var rest := KeptPositions(s[1..], keep);
      var f := Filter(s[1..], keep);
      var sh := Shift(rest);
      forall i | 0 <= i < |rest|
        ensures sh[i] < |s| && f[i] == s[sh[i]]
      {
        assert s[1..][rest[i]] == s[rest[i] + 1];
      }
      if keep(s[0]) {
        assert KeptPositions(s, keep) == [0] + sh;
        assert Filter(s, keep) == [s[0]] + f;
        forall i | 0 < i < |sh| + 1
          ensures ([0] + sh)[i] < |s| && ([s[0]] + f)[i] == s[([0] + sh)[i]]
        {
          assert ([0] + sh)[i] == sh[i - 1] && ([s[0]] + f)[i] == f[i - 1];
        }
      } else {
        assert KeptPositions(s, keep) == sh;
        assert Filter(s, keep) == f;
      }
    }
  }

  predicate Increasing(idx: seq<nat>)
  {
    forall i, j :: 0 <= i < j < |idx| ==> idx[i] < idx[j]
  }

  /** The kept positions increase strictly. */
  lemma {:induction false} KeptPositionsIncrease<T>(s: seq<T>, keep: T -> bool)
    ensures Increasing(KeptPositions(s, keep))
  {
    if s != [] {
      KeptPositionsIncrease(s[1..], keep);
      var rest := KeptPositions(s[1..], keep);
      var sh := Shift(rest);
      assert Increasing(sh) by {
        forall i, j | 0 <= i < j < |sh|
          ensures sh[i] < sh[j]
        {
          assert rest[i] < rest[j];
        }
      }
      if keep(s[0]) {
        assert KeptPositions(s, keep) == [0] + sh;
        forall i, j | 0 <= i < j < |sh| + 1
          ensures ([0] + sh)[i] < ([0] + sh)[j]
        {
          assert ([0] + sh)[j] == sh[j - 1];
          if i > 0 {
            assert ([0] + sh)[i] == sh[i - 1];
          }
        }
        assert Increasing([0] + sh);
      } else {
        assert KeptPositions(s, keep) == sh;
      }
    }
  }

  /** Every position whose element passes is a kept position. */
  lemma {:induction false} KeptPositionsCover<T>(s: seq<T>, keep: T -> bool)
    ensures forall p :: 0 <= p < |s| && keep(s[p]) ==> p in KeptPositions(s, keep)
  {
    if s != [] {
      KeptPositionsCover(s[1..], keep);
      var rest := KeptPositions(s[1..], keep);
      var sh := Shift(rest);
      forall p | 1 <= p < |s| && keep(s[p])
        ensures p in sh
      {
        assert s[1..][p - 1] == s[p];
        var i :| 0 <= i < |rest| && rest[i] == p - 1;
        assert sh[i] == p;
      }
      if keep(s[0]) {
        assert KeptPositions(s, keep) == [0] + sh;
      } else {
        assert KeptPositions(s, keep) == sh;
      }
    }
  }


  /** Every position moved one place on. */
  function Shift(r: seq<nat>): (t: seq<nat>)
    ensures |t| == |r| && forall i :: 0 <= i < |r| ==> t[i] == r[i] + 1
  {
    if r == [] then [] else [r[0] + 1] + Shift(r[1..])
  }

  /** The values of `keys` in `m`, newest first, those that pass `keep`, at most `n` of them. */
  function NewestView<K, V>(m: map<K, V>, keys: seq<K>, keep: V -> bool, n: nat): (v: seq<V>)
    requires forall i :: 0 <= i < |keys| ==> keys[i] in m
  {
    Take(Filter(Reverse(Lookup(m, keys)), keep), n)
  }

  /** The `i`-th element of the view is the value of the key at the `i`-th kept position, counted from the end. */
  lemma {:induction false} ViewAt<K, V>(m: map<K, V>, keys: seq<K>, keep: V -> bool, n: nat, i: nat)
    requires forall i :: 0 <= i < |keys| ==> keys[i] in m
    requires i < |NewestView(m, keys, keep, n)|
    ensures i < |KeptPositions(Reverse(Lookup(m, keys)), keep)|
    ensures 0 <= |keys| - 1 - KeptPositions(Reverse(Lookup(m, keys)), keep)[i] < |keys|
    ensures NewestView(m, keys, keep, n)[i] == m[keys[|keys| - 1 - KeptPositions(Reverse(Lookup(m, keys)), keep)[i]]]
  {
    var rs := Reverse(Lookup(m, keys));
    TakeAt(Filter(rs, keep), n, i);
    KeptAt(rs, keep, i);
    ReversedLookupAt(m, keys, KeptPositions(rs, keep)[i]);
  }

  /** The first `n` elements keep their places. */
  lemma TakeAt<T>(s: seq<T>, n: nat, i: nat)
    requires i < |Take(s, n)|
    ensures i < |s| && Take(s, n)[i] == s[i]
  {
  }

  /** The `i`-th kept element sits at the `i`-th kept position. */
  lemma {:induction false} KeptAt<T>(s: seq<T>, keep: T -> bool, i: nat)
    requires i < |Filter(s, keep)|
    ensures i < |KeptPositions(s, keep)| && KeptPositions(s, keep)[i] < |s|
    ensures Filter(s, keep)[i] == s[KeptPositions(s, keep)[i]]
  {
    KeptPositionsHold(s, keep);
  }

  /** Position `x` of the reversed lookup holds the value of the `x`-th key from the end. */
  lemma ReversedLookupAt<K, V>(m: map<K, V>, keys: seq<K>, x: nat)
    requires forall i :: 0 <= i < |keys| ==> keys[i] in m
    requires x < |keys|
    ensures Reverse(Lookup(m, keys))[x] == m[keys[|keys| - 1 - x]]
  {
  }

  /** Two keys at positions `q < p` stand in that order. */
  lemma LaterAt<K>(keys: seq<K>, p: nat, q: nat)
    requires q < p < |keys|
    ensures LaterIn(keys, keys[p], keys[q])
  {
  }

  /** The view runs from the newest to the oldest key. */
  lemma {:induction false} NewestViewOrder<K, V>(m: map<K, V>, keys: seq<K>, id: V -> K, keep: V -> bool, n: nat)
    requires forall i :: 0 <= i < |keys| ==> keys[i] in m && id(m[keys[i]]) == keys[i]
    ensures var v := NewestView(m, keys, keep, n);
      forall i, j :: 0 <= i < j < |v| ==> LaterIn(keys, id(v[i]), id(v[j]))
  {
    var v := NewestView(m, keys, keep, n);
    var idx := KeptPositions(Reverse(Lookup(m, keys)), keep);
    KeptPositionsIncrease(Reverse(Lookup(m, keys)), keep);
    forall i, j | 0 <= i < j < |v|
      ensures LaterIn(keys, id(v[i]), id(v[j]))
    {
      ViewAt(m, keys, keep, n, i);
      ViewAt(m, keys, keep, n, j);
      assert idx[i] < idx[j];
      LaterAt(keys, |keys| - 1 - idx[i], |keys| - 1 - idx[j]);
    }
  }


  /** The view holds every kept value newer than any of its elements. */
  lemma {:induction false} NewestViewComplete<K, V>(m: map<K, V>, keys: seq<K>, id: V -> K, keep: V -> bool, n: nat)
    requires forall i :: 0 <= i < |keys| ==> keys[i] in m && id(m[keys[i]]) == keys[i]
    requires forall i, j :: 0 <= i < j < |keys| ==> keys[i] != keys[j]
    ensures var v := NewestView(m, keys, keep, n);
      forall k, a :: 0 <= k < |v| && a in m && keep(m[a]) && LaterIn(keys, a, id(v[k])) ==> m[a] in v
  {
    var v := NewestView(m, keys, keep, n);
    var idx := KeptPositions(Reverse(Lookup(m, keys)), keep);
    forall k, a | 0 <= k < |v| && a in m && keep(m[a]) && LaterIn(keys, a, id(v[k]))
      ensures m[a] in v
    {
      ViewAt(m, keys, keep, n, k);
      var p, q :| 0 <= q < p < |keys| && keys[p] == a && keys[q] == id(v[k]);
      assert keys[|keys| - 1 - idx[k]] == id(v[k]);
      NewerKeptInView(m, keys, keep, n, k, p);
    }
  }

  /** One kept value at a key after the source of `v[k]` is in the view. */
  lemma {:induction false} NewerKeptInView<K, V>(m: map<K, V>, keys: seq<K>, keep: V -> bool, n: nat, k: nat, p: nat)
    requires forall i :: 0 <= i < |keys| ==> keys[i] in m
    requires k < |NewestView(m, keys, keep, n)| && p < |keys| && keep(m[keys[p]])
    requires p > |keys| - 1 - KeptPositions(Reverse(Lookup(m, keys)), keep)[k]
    ensures m[keys[p]] in NewestView(m, keys, keep, n)
  {
    var rs := Reverse(Lookup(m, keys));
    var f := Filter(rs, keep);
    var v := NewestView(m, keys, keep, n);
    var pr := |keys| - 1 - p;
    assert exists i :: 0 <= i < k && f[i] == m[keys[p]] by {
      assert rs[pr] == m[keys[p]];
      KeptBefore(rs, keep, k, pr);
    }
    var i :| 0 <= i < k && f[i] == m[keys[p]];
    assert v[i] == f[i] by {
      assert v == f[..|v|];
    }
  }

  /** A kept element at a position before the `k`-th kept one is among the first `k` kept. */
  lemma {:induction false} KeptBefore<T>(s: seq<T>, keep: T -> bool, k: nat, pr: nat)
    requires k < |KeptPositions(s, keep)| && pr < KeptPositions(s, keep)[k] && pr < |s| && keep(s[pr])
    ensures exists i :: 0 <= i < k && Filter(s, keep)[i] == s[pr]
  {
    var idx := KeptPositions(s, keep);
    KeptPositionsCover(s, keep);
    assert pr in idx;
    var i :| 0 <= i < |idx| && idx[i] == pr;
    KeptPositionsIncrease(s, keep);
    IncreasingIndexOrder(idx, i, k);
    KeptPositionsHold(s, keep);
    assert Filter(s, keep)[i] == s[pr];
  }

  /** In an increasing sequence a smaller entry stands earlier. */
  lemma IncreasingIndexOrder(idx: seq<nat>, i: nat, k: nat)
    requires Increasing(idx) && i < |idx| && k < |idx| && idx[i] < idx[k]
    ensures i < k
  {
  }

  /** A view that `n` does not cut holds every kept value. */
  lemma {:induction false} NewestViewUncut<K, V>(m: map<K, V>, keys: seq<K>, keep: V -> bool, n: nat)
    requires forall i :: 0 <= i < |keys| ==> keys[i] in m
    requires |NewestView(m, keys, keep, n)| < n || |Filter(Reverse(Lookup(m, keys)), keep)| <= n
    ensures forall p :: 0 <= p < |keys| && keep(m[keys[p]]) ==> m[keys[p]] in NewestView(m, keys, keep, n)
  {
    var rs := Reverse(Lookup(m, keys));
    var v := NewestView(m, keys, keep, n);
    assert v == Filter(rs, keep);
    forall p | 0 <= p < |keys| && keep(m[keys[p]])
      ensures m[keys[p]] in v
    {
      assert rs[|keys| - 1 - p] == m[keys[p]];
    }
  }

  /** JavaScript's `length` of a string: UTF-16 code units, two for a character above U+FFFF. */
  function Utf16Length(s: string): (n: nat)
    ensures |s| <= n <= 2 * |s|
  {
    if s == [] then 0
    else (if s[0] as int > 0xFFFF then 2 else 1) + Utf16Length(s[1..])
  }

  /** A string of characters from the Basic Multilingual Plane has one code unit per character. */
  lemma {:induction false} Utf16LengthOfBmp(s: string)
    ensures (forall i :: 0 <= i < |s| ==> s[i] as int <= 0xFFFF) <==> Utf16Length(s) == |s|
  {
    if s != [] {
      Utf16LengthOfBmp(s[1..]);
      assert forall i :: 1 <= i < |s| ==> s[i] == s[1..][i - 1];
    }
  }
}
