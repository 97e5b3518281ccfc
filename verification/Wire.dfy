/**
 The wire forms every message is put together from: little-endian integers, and strings and lists
 behind a 16-bit length. Each Put writes its value in front of the bytes that follow it; each Get
 takes a value off the front and returns what is left.
 */
module Wire {
  import opened Base

  type byte = n: int | 0 <= n < 0x100

  type uint32 = n: int | 0 <= n < 0x1_0000_0000

  type Bytes = seq<byte>

  const MAX_LENGTH: nat := 0xFFFF

  datatype Parsed<+T> = Bad | Got(value: T, rest: Bytes) {
    predicate IsFailure() {
      Bad?
    }

    function PropagateFailure<U>(): (parsed: Parsed<U>)
      requires Bad?
    {
      Bad
    }

    function Extract(): (r: (T, Bytes))
      requires Got?
    {
      (value, rest)
    }
  }

  function U16(x: uint16): (b: Bytes)
    ensures |b| == 2
  {
    [x % 0x100, x / 0x100]
  }

  function U32(x: uint32): (b: Bytes)
    ensures |b| == 4
  {
    U16(x % 0x1_0000) + U16(x / 0x1_0000)
  }

  /** The low byte comes first. */
  lemma U16Bytes(x: uint16)
    ensures U16(x)[0] == x % 0x100 && U16(x)[1] == x / 0x100
  {}

  lemma U32Bytes(x: uint32)
    ensures U32(x)[0] == x % 0x100 && U32(x)[1] == x / 0x100 % 0x100
    ensures U32(x)[2] == x / 0x1_0000 % 0x100 && U32(x)[3] == x / 0x100_0000
  {
    var lo: uint16, hi: uint16 := x % 0x1_0000, x / 0x1_0000;
    U16Bytes(lo);
    U16Bytes(hi);
    assert U32(x) == [U16(lo)[0], U16(lo)[1], U16(hi)[0], U16(hi)[1]];
  }

  function ValueOfU16(b0: byte, b1: byte): (n: uint16) {
    b0 + 0x100 * b1
  }

  function PutU8(x: byte, rest: Bytes): (bytes: Bytes) {
    [x] + rest
  }

  function PutU16(x: uint16, rest: Bytes): (bytes: Bytes) {
    U16(x) + rest
  }

  function PutU32(x: uint32, rest: Bytes): (bytes: Bytes) {
    U32(x) + rest
  }

  /** Meant for strings of up to MAX_LENGTH bytes; nothing longer is ever written. */
  function PutStr(s: Bytes, rest: Bytes): (bytes: Bytes) {
    PutU16(Narrow(|s|), s + rest)
  }

  function GetU8(d: Bytes): (r: Parsed<byte>)
    ensures if |d| < 1 then r.Bad? else r.Got? && |d| == 1 + |r.rest|
  {
    if |d| < 1 then Bad else Got(d[0], d[1..])
  }

  function GetU16(d: Bytes): (r: Parsed<uint16>)
    ensures if |d| < 2 then r.Bad? else r.Got? && |d| == 2 + |r.rest|
  {
    if |d| < 2 then Bad else Got(ValueOfU16(d[0], d[1]), d[2..])
  }

  function GetU32(d: Bytes): (r: Parsed<uint32>)
    ensures if |d| < 4 then r.Bad? else r.Got? && |d| == 4 + |r.rest|
  {
    var (lo, d) :- GetU16(d);
    var (hi, d) :- GetU16(d);
    Got(lo + 0x1_0000 * hi, d)
  }

  function GetStr(d: Bytes): (r: Parsed<Bytes>)
    ensures r.Got? ==> |d| == 2 + |r.value| + |r.rest|
  {
    var (n, d1) :- GetU16(d);
    if |d1| < n then Bad else Got(d1[..n], d1[n..])
  }

  lemma U8RoundTrip(x: byte, rest: Bytes)
    ensures GetU8(PutU8(x, rest)) == Got(x, rest)
  {
    assert PutU8(x, rest)[1..] == rest;
  }

  lemma U8IsPut(d: Bytes)
    requires GetU8(d).Got?
    ensures d == PutU8(GetU8(d).value, GetU8(d).rest)
  {}

  lemma U16RoundTrip(x: uint16, rest: Bytes)
    ensures GetU16(PutU16(x, rest)) == Got(x, rest)
  {
    assert PutU16(x, rest)[2..] == rest;
  }

  lemma U16IsPut(d: Bytes)
    requires GetU16(d).Got?
    ensures d == PutU16(GetU16(d).value, GetU16(d).rest)
  {
    assert d == d[..2] + d[2..];
    assert d[..2] == U16(GetU16(d).value);
  }

  /** A 32-bit value is its two halves, the low one first. */
  lemma U32Halves(x: uint32, rest: Bytes)
    ensures PutU32(x, rest) == PutU16(x % 0x1_0000, PutU16(x / 0x1_0000, rest))
  {}

  lemma U32RoundTrip(x: uint32, rest: Bytes)
    ensures GetU32(PutU32(x, rest)) == Got(x, rest)
  {
    var lo: uint16, hi: uint16 := x % 0x1_0000, x / 0x1_0000;
    U32Halves(x, rest);
    U16RoundTrip(lo, PutU16(hi, rest));
    U16RoundTrip(hi, rest);
  }

  lemma U32IsPut(d: Bytes)
    requires GetU32(d).Got?
    ensures d == PutU32(GetU32(d).value, GetU32(d).rest)
  {
    var Got(lo, d1) := GetU16(d);
    var Got(hi, rest) := GetU16(d1);
    U16IsPut(d);
    U16IsPut(d1);
    var x: uint32 := GetU32(d).value;
    assert x % 0x1_0000 == lo && x / 0x1_0000 == hi;
    U32Halves(x, rest);
  }

  lemma StrRoundTrip(s: Bytes, rest: Bytes)
    requires |s| <= MAX_LENGTH
    ensures GetStr(PutStr(s, rest)) == Got(s, rest)
  {
    U16RoundTrip(|s|, s + rest);
    assert (s + rest)[..|s|] == s && (s + rest)[|s|..] == rest;
  }

  lemma StrIsPut(d: Bytes)
    requires GetStr(d).Got?
    ensures |GetStr(d).value| <= MAX_LENGTH && d == PutStr(GetStr(d).value, GetStr(d).rest)
  {
    U16IsPut(d);
    var Got(n, d1) := GetU16(d);
    var Got(s, rest) := GetStr(d);
    assert d1 == s + rest;
    assert Narrow(|s|) == n;
  }

  // ---------------------------------------------------------------- formats and lists

  /** A way to write values and read them back, for the values that fit. */
  datatype Format<!T> = Format(put: (T, Bytes) -> Bytes, get: Bytes -> Parsed<T>, fits: T -> bool)

  /** Reading undoes writing. */
  ghost predicate Restores<T(!new)>(f: Format<T>) {
    forall x, rest :: f.fits(x) ==> f.get(f.put(x, rest)) == Got(x, rest)
  }

  /** Whatever reads was written by put, of a value that fits. */
  ghost predicate Exact<T(!new)>(f: Format<T>) {
    && Restores(f)
    && (forall d :: f.get(d).Got? ==> f.fits(f.get(d).value) && d == f.put(f.get(d).value, f.get(d).rest))
  }

  function PutEach<T>(f: Format<T>, xs: seq<T>, rest: Bytes): (bytes: Bytes) {
    if xs == [] then rest else f.put(xs[0], PutEach(f, xs[1..], rest))
  }

  function GetEach<T>(f: Format<T>, n: nat, d: Bytes): (parsed: Parsed<seq<T>>) {
    if n == 0 then Got([], d)
    else
      var (x, d1) :- f.get(d);
      var (xs, d2) :- GetEach(f, n - 1, d1);
      Got([x] + xs, d2)
  }

  /** Elements read one after the other, each from where the one before it ended. */
  ghost predicate ReadsInTurn<T>(f: Format<T>, xs: seq<T>, ds: seq<Bytes>) {
    |ds| == |xs| + 1 && forall k :: 0 <= k < |xs| ==> f.get(ds[k]) == Got(xs[k], ds[k + 1])
  }

  /** Reading element by element until all are read, or one cannot be, is reading the list. */
  lemma {:induction false} ReadInTurn<T>(f: Format<T>, xs: seq<T>, ds: seq<Bytes>, n: nat)
    requires |xs| <= n && ReadsInTurn(f, xs, ds) && (|xs| < n ==> f.get(ds[|xs|]).Bad?)
    ensures GetEach(f, n, ds[0]) == if |xs| == n then Got(xs, ds[n]) else Bad
    decreases |xs|
  {
    if |xs| == 0 {
    } else {
      ReadInTurn(f, xs[1..], ds[1..], n - 1);
      assert [xs[0]] + xs[1..] == xs;
    }
  }

  /** What is written from each element on. */
  ghost predicate WritesInTurn<T>(f: Format<T>, xs: seq<T>, ts: seq<Bytes>) {
    |ts| == |xs| + 1 && ts[|xs|] == [] && forall k :: 0 <= k < |xs| ==> ts[k] == f.put(xs[k], ts[k + 1])
  }

  lemma {:induction false} WriteInTurn<T>(f: Format<T>, xs: seq<T>) returns (ts: seq<Bytes>)
    ensures WritesInTurn(f, xs, ts) && ts[0] == PutEach(f, xs, [])
  {
    if xs == [] {
      ts := [[]];
    } else {
      ts := WriteInTurn(f, xs[1..]);
      ts := [f.put(xs[0], ts[0])] + ts;
    }
  }

  function PutList<T>(f: Format<T>, xs: seq<T>, rest: Bytes): (bytes: Bytes) {
    PutU16(Narrow(|xs|), PutEach(f, xs, rest))
  }

  function GetList<T>(f: Format<T>, d: Bytes): (parsed: Parsed<seq<T>>) {
    var (n, d1) :- GetU16(d);
    GetEach(f, n, d1)
  }

  predicate ListFits<T>(f: Format<T>, xs: seq<T>) {
    |xs| <= MAX_LENGTH && forall i :: 0 <= i < |xs| ==> f.fits(xs[i])
  }

  lemma {:induction false} GetUndoesPutEach<T(!new)>(f: Format<T>, xs: seq<T>, rest: Bytes)
    requires Restores(f) && forall i :: 0 <= i < |xs| ==> f.fits(xs[i])
    ensures GetEach(f, |xs|, PutEach(f, xs, rest)) == Got(xs, rest)
  {
    if xs == [] {
    } else {
      GetUndoesPutEach(f, xs[1..], rest);
      assert [xs[0]] + xs[1..] == xs;
    }
  }

  lemma {:induction false} GetEachIsPut<T(!new)>(f: Format<T>, n: nat, d: Bytes)
    requires Exact(f) && GetEach(f, n, d).Got?
    ensures var Got(xs, rest) := GetEach(f, n, d);
            |xs| == n && (forall i :: 0 <= i < n ==> f.fits(xs[i])) && d == PutEach(f, xs, rest)
  {
    if n == 0 {
    } else {
      var Got(x, d1) := f.get(d);
      GetEachIsPut(f, n - 1, d1);
      var Got(xs, rest) := GetEach(f, n - 1, d1);
      assert ([x] + xs)[1..] == xs;
    }
  }

  lemma ListRoundTrip<T(!new)>(f: Format<T>, xs: seq<T>, rest: Bytes)
    requires Restores(f) && ListFits(f, xs)
    ensures GetList(f, PutList(f, xs, rest)) == Got(xs, rest)
  {
    var body := PutEach(f, xs, rest);
    var n: uint16 := |xs|;
    assert PutList(f, xs, rest) == PutU16(n, body);
    U16RoundTrip(n, body);
    GetListStep(f, PutU16(n, body), n, body);
    GetUndoesPutEach(f, xs, rest);
  }

  lemma GetListStep<T>(f: Format<T>, d: Bytes, n: uint16, body: Bytes)
    requires GetU16(d) == Got(n, body)
    ensures GetList(f, d) == GetEach(f, n, body)
  {}

  lemma ListIsPut<T(!new)>(f: Format<T>, d: Bytes)
    requires Exact(f) && GetList(f, d).Got?
    ensures ListFits(f, GetList(f, d).value) && d == PutList(f, GetList(f, d).value, GetList(f, d).rest)
  {
    var Got(n, d1) := GetU16(d);
    U16IsPut(d);
    assert GetEach(f, n, d1) == GetList(f, d);
    GetEachIsPut(f, n, d1);
    var Got(xs, rest) := GetEach(f, n, d1);
    assert Narrow(|xs|) == n;
  }

  // ---------------------------------------------------------------- what follows for any exact format

  /** What a format writes does not depend on the bytes that follow. */
  ghost predicate Appends<T(!new)>(f: Format<T>) {
    forall x, a, b :: f.put(x, a + b) == f.put(x, a) + b
  }

  function Encode<T>(f: Format<T>, x: T): (bytes: Bytes) {
    f.put(x, [])
  }

  lemma AppendsTo<T(!new)>(f: Format<T>, x: T, rest: Bytes)
    requires Appends(f)
    ensures f.put(x, rest) == Encode(f, x) + rest
  {
    assert [] + rest == rest;
  }

  /** Round trip in context: after any prefix and before any trailing bytes, exactly the value comes back. */
  lemma RoundTripInContext<T(!new)>(f: Format<T>, prefix: Bytes, x: T, trailing: Bytes)
    requires Restores(f) && Appends(f) && f.fits(x)
    ensures var buffer := prefix + Encode(f, x) + trailing;
            && buffer[..|prefix|] == prefix
            && f.get(buffer[|prefix|..]) == Got(x, trailing)
            && |buffer| - |prefix| - |trailing| == |Encode(f, x)|
  {
    AppendsTo(f, x, trailing);
    var buffer := prefix + Encode(f, x) + trailing;
    assert buffer[|prefix|..] == f.put(x, trailing);
  }

  /**
   The reader succeeds exactly on the data that starts with the encoding of a value that fits, and
   writing what it read gives back exactly the bytes it consumed.
   */
  lemma ReadsExactlyTheEncodings<T(!new)>(f: Format<T>, d: Bytes)
    requires Exact(f) && Appends(f)
    ensures f.get(d).Got? <==> exists x :: f.fits(x) && Encode(f, x) <= d
    ensures f.get(d).Got? ==> d == Encode(f, f.get(d).value) + f.get(d).rest
  {
    if f.get(d).Got? {
      AppendsTo(f, f.get(d).value, f.get(d).rest);
    }
    forall x | f.fits(x) && Encode(f, x) <= d ensures f.get(d).Got? {
      var rest := d[|Encode(f, x)|..];
      AppendsTo(f, x, rest);
      assert d == f.put(x, rest);
    }
  }

  /** No encoding is a proper prefix of another. */
  lemma PrefixFree<T(!new)>(f: Format<T>, x: T, y: T)
    requires Restores(f) && Appends(f) && f.fits(x) && f.fits(y)
    requires Encode(f, x) <= Encode(f, y)
    ensures x == y
  {
    var rest := Encode(f, y)[|Encode(f, x)|..];
    AppendsTo(f, x, rest);
    assert f.put(y, []) == f.put(x, rest);
  }

  lemma U16Appends(x: uint16, a: Bytes, b: Bytes)
    ensures PutU16(x, a + b) == PutU16(x, a) + b
  {}

  lemma U32Appends(x: uint32, a: Bytes, b: Bytes)
    ensures PutU32(x, a + b) == PutU32(x, a) + b
  {}

  lemma StrAppends(s: Bytes, a: Bytes, b: Bytes)
    ensures PutStr(s, a + b) == PutStr(s, a) + b
  {
    assert s + (a + b) == s + a + b;
    U16Appends(Narrow(|s|), s + a, b);
  }

  lemma {:induction false} ListAppends<T(!new)>(f: Format<T>, xs: seq<T>, a: Bytes, b: Bytes)
    requires Appends(f)
    ensures PutEach(f, xs, a + b) == PutEach(f, xs, a) + b
    ensures PutList(f, xs, a + b) == PutList(f, xs, a) + b
  {
    if xs == [] {
    } else {
      ListAppends(f, xs[1..], a, b);
    }
    U16Appends(Narrow(|xs|), PutEach(f, xs, a), b);
  }

  // ---------------------------------------------------------------- one format seen through another

  function Map<S, T>(xs: seq<S>, view: S -> T): (ys: seq<T>)
    ensures |ys| == |xs|
  {
    seq(|xs|, i requires 0 <= i < |xs| => view(xs[i]))
  }

  /** f reads what g reads, seen through view, and writes what g writes for its representative. */
  ghost predicate Through<S(!new), T(!new)>(f: Format<T>, g: Format<S>, view: S -> T, rep: T -> S) {
    && (forall d :: f.get(d) == match g.get(d) case Bad => Bad case Got(x, rest) => Got(view(x), rest))
    && (forall y, rest :: f.put(y, rest) == g.put(rep(y), rest))
  }

  lemma {:induction false} GetEachThrough<S(!new), T(!new)>(
      f: Format<T>, g: Format<S>, view: S -> T, rep: T -> S, n: nat, d: Bytes)
    requires Through(f, g, view, rep)
    ensures GetEach(f, n, d) == match GetEach(g, n, d) case Bad => Bad case Got(xs, rest) => Got(Map(xs, view), rest)
  {
    if n == 0 {
    } else if g.get(d).Bad? {
    } else {
      var Got(x, d1) := g.get(d);
      GetEachThrough(f, g, view, rep, n - 1, d1);
      if GetEach(g, n - 1, d1).Got? {
        var xs := GetEach(g, n - 1, d1).value;
        assert Map([x] + xs, view) == [view(x)] + Map(xs, view);
      }
    }
  }

  lemma {:induction false} PutEachThrough<S(!new), T(!new)>(
      f: Format<T>, g: Format<S>, view: S -> T, rep: T -> S, ys: seq<T>, rest: Bytes)
    requires Through(f, g, view, rep)
    ensures PutEach(f, ys, rest) == PutEach(g, Map(ys, rep), rest)
  {
    if ys == [] {
    } else {
      PutEachThrough(f, g, view, rep, ys[1..], rest);
      assert Map(ys, rep)[1..] == Map(ys[1..], rep);
    }
  }
}
