/**
 What the contracts rely on from cw_storage_plus for keyed maps: a `u64` key is stored as
 its 8-byte big-endian encoding (`U64Key`), and `keys(.., Order::Ascending)` walks the
 stored keys in byte-lexicographic order. The lemmas show that decoding inverts the
 encoding and that byte order on encoded keys is numeric order on `u64`.
 */
module StorageKeys {
  import opened TicketAuction

  type Byte = x: int | 0 <= x < 256

  function Pow256(n: nat): (p: nat)
    ensures p >= 1
  {
    if n == 0 then 1 else 256 * Pow256(n - 1)
  }

  lemma Pow256Eight()
    ensures Pow256(8) == U64_LIMIT
  {
    assert Pow256(2) == 0x1_0000;
    assert Pow256(4) == 0x1_0000_0000 by { assert Pow256(3) == 0x100_0000; }
    assert Pow256(6) == 0x1_0000_0000_0000 by { assert Pow256(5) == 0x100_0000_0000; }
    assert Pow256(7) == 0x100_0000_0000_0000;
  }

  /** `k.to_be_bytes()` over `n` bytes: the most significant byte first. */
  function ToBe(k: nat, n: nat): (b: seq<Byte>)
    requires k < Pow256(n)
    ensures |b| == n
  {
    if n == 0 then [] else ToBe(k / 256, n - 1) + [k % 256]
  }

  /** `u64::from_be_bytes`, for any width. */
  function FromBe(b: seq<Byte>): (v: nat)
    ensures v < Pow256(|b|)
  {
    if b == [] then 0 else 256 * FromBe(b[..|b| - 1]) + b[|b| - 1]
  }

  lemma {:induction false} FromBeToBe(k: nat, n: nat)
    requires k < Pow256(n)
    ensures FromBe(ToBe(k, n)) == k
  {
    if n > 0 {
      var b := ToBe(k, n);
      assert b[..n - 1] == ToBe(k / 256, n - 1);
      FromBeToBe(k / 256, n - 1);
    }
  }

  lemma {:induction false} ToBeFromBe(b: seq<Byte>)
    ensures ToBe(FromBe(b), |b|) == b
  {
    if b != [] {
      var front := b[..|b| - 1];
      ToBeFromBe(front);
      assert FromBe(b) / 256 == FromBe(front);
      assert b == front + [b[|b| - 1]];
    }
  }

  /** Two encodings of the same width are equal exactly when the numbers are. */
  lemma FromBeInjective(a: seq<Byte>, b: seq<Byte>)
    requires |a| == |b| && FromBe(a) == FromBe(b)
    ensures a == b
  {
    ToBeFromBe(a);
    ToBeFromBe(b);
  }

  /** Byte-lexicographic order, the order in which the storage engine walks raw keys. */
  predicate LexLess(a: seq<Byte>, b: seq<Byte>)
  {
    if a == [] then b != []
    else b != [] && (a[0] < b[0] || (a[0] == b[0] && LexLess(a[1..], b[1..])))
  }

  /** For keys of one width, byte order is decided by the fronts, then by the last bytes. */
  lemma {:induction false} LexLessByLast(a: seq<Byte>, b: seq<Byte>)
    requires |a| == |b| > 0
    ensures LexLess(a, b) <==>
      LexLess(a[..|a| - 1], b[..|b| - 1])
      || (a[..|a| - 1] == b[..|b| - 1] && a[|a| - 1] < b[|b| - 1])
  {
    var n := |a|;
    if n > 1 {
      LexLessByLast(a[1..], b[1..]);
      assert a[1..][..n - 2] == a[..n - 1][1..];
      assert b[1..][..n - 2] == b[..n - 1][1..];
      assert a[..n - 1] == b[..n - 1] <==> a[0] == b[0] && a[..n - 1][1..] == b[..n - 1][1..] by {
        if a[0] == b[0] && a[..n - 1][1..] == b[..n - 1][1..] {
          assert a[..n - 1] == [a[0]] + a[..n - 1][1..];
          assert b[..n - 1] == [b[0]] + b[..n - 1][1..];
        }
      }
    }
  }

  /** On big-endian encodings of one width, byte order is numeric order. */
  lemma {:induction false} LexLessIff(a: seq<Byte>, b: seq<Byte>)
    requires |a| == |b|
    ensures LexLess(a, b) <==> FromBe(a) < FromBe(b)
  {
    if a != [] {
      var n := |a|;
      var fa, fb := a[..n - 1], b[..n - 1];
      LexLessByLast(a, b);
      LexLessIff(fa, fb);
      if fa == fb {
      } else if FromBe(fa) == FromBe(fb) {
        FromBeInjective(fa, fb);
      }
    }
  }

  /** `U64Key::from(tid)`: the raw storage key of a ticket id. */
  function Key(tid: U64): (k: seq<Byte>)
    ensures |k| == 8
  {
    Pow256Eight();
    ToBe(tid, 8)
  }

  /** `u64::from_be_bytes` on an 8-byte array. */
  function FromBeBytes(b: seq<Byte>): (v: U64)
    requires |b| == 8
    ensures Key(v) == b
  {
    Pow256Eight();
    ToBeFromBe(b);
    FromBe(b)
  }

  /** Decoding a stored key gives back the ticket id it was stored under. */
  lemma KeyRoundTrip(tid: U64)
    ensures FromBeBytes(Key(tid)) == tid
  {
    Pow256Eight();
    FromBeToBe(tid, 8);
  }

  /** The raw keys of two ids compare in byte order exactly as the ids compare. */
  lemma KeyOrder(x: U64, y: U64)
    ensures LexLess(Key(x), Key(y)) <==> x < y
  {
    LexLessIff(Key(x), Key(y));
    KeyRoundTrip(x);
    KeyRoundTrip(y);
  }

  /** Distinct ids have distinct raw keys. */
  lemma KeyInjective(x: U64, y: U64)
    requires Key(x) == Key(y)
    ensures x == y
  {
    KeyRoundTrip(x);
    KeyRoundTrip(y);
  }

  // ---- ascending key iteration ----

  predicate Ascending(s: seq<U64>)
  {
    forall i, j :: 0 <= i < j < |s| ==> s[i] < s[j]
  }

  function InsertAscending(s: seq<U64>, k: U64): (r: seq<U64>)
    requires Ascending(s) && k !in s
    ensures Ascending(r)
    ensures forall x :: x in r <==> x in s || x == k
  {
    if s == [] then [k]
    else if k < s[0] then [k] + s
    else
      var rest := InsertAscending(s[1..], k);
      assert forall j :: 0 <= j < |rest| ==> s[0] < rest[j] by {
        forall j | 0 <= j < |rest| ensures s[0] < rest[j] {
          var x := rest[j];
          assert x in rest;
          if x != k {
            var i :| 0 <= i < |s[1..]| && s[1..][i] == x;
            assert s[i + 1] == x;
          }
        }
      }
      var r := [s[0]] + rest;
      assert forall i :: 1 <= i < |r| ==> r[i] == rest[i - 1];
      r
  }

  /** `keys(.., Order::Ascending)` of a map keyed by `u64`. */
  method AscendingKeys<V>(m: map<U64, V>) returns (ks: seq<U64>)
    ensures Ascending(ks)
    ensures forall k :: k in ks <==> k in m
  {
    ks := [];
    var rest := m.Keys;
    while rest != {}
      invariant rest <= m.Keys
      invariant Ascending(ks)
      invariant forall k :: k in ks <==> k in m && k !in rest
      decreases rest
    {
      var k :| k in rest;
      ks := InsertAscending(ks, k);
      rest := rest - {k};
    }
  }

  predicate LexAscending(s: seq<seq<Byte>>)
  {
    forall i, j :: 0 <= i < j < |s| ==> LexLess(s[i], s[j])
  }

  predicate AllKeys8(s: seq<seq<Byte>>)
  {
    forall i :: 0 <= i < |s| ==> |s[i]| == 8
  }

  function InsertLex(s: seq<seq<Byte>>, k: seq<Byte>): (r: seq<seq<Byte>>)
    requires AllKeys8(s) && |k| == 8
    requires LexAscending(s) && k !in s
    ensures AllKeys8(r) && LexAscending(r)
    ensures forall x :: x in r <==> x in s || x == k
  {
    if s == [] then [k]
    else if LexLess(k, s[0]) then
      assert forall j :: 0 <= j < |s| ==> LexLess(k, s[j]) by {
        forall j | 0 <= j < |s| ensures LexLess(k, s[j]) {
          if j > 0 {
            LexLessIff(k, s[0]);
            LexLessIff(s[0], s[j]);
            LexLessIff(k, s[j]);
          }
        }
      }
      var r := [k] + s;
      assert forall i :: 1 <= i < |r| ==> r[i] == s[i - 1];
      r
    else
      var rest := InsertLex(s[1..], k);
      assert LexLess(s[0], k) by {
        LexLessIff(k, s[0]);
        LexLessIff(s[0], k);
        if FromBe(k) == FromBe(s[0]) {
          FromBeInjective(k, s[0]);
        }
      }
      assert forall x :: x in rest ==> LexLess(s[0], x) by {
        forall x | x in rest ensures LexLess(s[0], x) {
          if x != k {
            var j :| 0 <= j < |s[1..]| && s[1..][j] == x;
            assert s[j + 1] == x;
          }
        }
      }
      var r := [s[0]] + rest;
      assert forall i :: 1 <= i < |r| ==> r[i] == rest[i - 1];
      r
  }

  /** `keys(.., Order::Ascending)` of a map keyed by raw bytes: the keys in byte order. */
  method AscendingRawKeys<V>(m: map<seq<Byte>, V>) returns (ks: seq<seq<Byte>>)
    requires forall k :: k in m ==> |k| == 8
    ensures AllKeys8(ks) && LexAscending(ks)
    ensures forall k :: k in ks <==> k in m
  {
    ks := [];
    var rest := m.Keys;
    while rest != {}
      invariant rest <= m.Keys
      invariant AllKeys8(ks) && LexAscending(ks)
      invariant forall k :: k in ks <==> k in m && k !in rest
      decreases rest
    {
      var k :| k in rest;
      ks := InsertLex(ks, k);
      rest := rest - {k};
    }
  }
}
