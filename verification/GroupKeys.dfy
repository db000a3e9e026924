/** Bucket keys of grouped statistics (plugins/memory/grouped_stats.go): what a value
    contributes to a group key, and the collision-free byte encoding of a key tuple. */
module GroupKeys {
  import opened Json

  newtype Byte = x: int | 0 <= x < 256

  /** The bytes of a key part; a null part is None. */
  type Part = Option<seq<Byte>>

  /** What a path resolves to in a stored document. Numbers keep their JSON text. */
  datatype Cell =
    | Missing
    | NullCell
    | Text(bytes: seq<Byte>)
    | Number(raw: seq<Byte>, n: real)
    | Flag(raw: seq<Byte>)
    | Nested

  /** extractGroupKey: scalars by their text, everything else the null bucket. */
  function PartOf(c: Cell): Part {
    match c
    case Text(bytes) => Some(bytes)
    case Number(raw, _) => Some(raw)
    case Flag(raw) => Some(raw)
    case _ => None
  }

  predicate Scalar(c: Cell) { c.Text? || c.Number? || c.Flag? }

  function TextOf(c: Cell): seq<Byte>
    requires Scalar(c)
  {
    if c.Text? then c.bytes else c.raw
  }

  // --- eight-byte lengths ------------------------------------------------

  function Pow256(k: nat): nat {
    if k == 0 then 1 else 256 * Pow256(k - 1)
  }

  /** Big-endian digits. */
  function Digits(n: nat, k: nat): (ds: seq<Byte>)
    ensures |ds| == k
  {
    if k == 0 then [] else Digits(n / 256, k - 1) + [(n % 256) as Byte]
  }

  function ValueOf(ds: seq<Byte>): nat {
    if ds == [] then 0 else 256 * ValueOf(ds[..|ds| - 1]) + ds[|ds| - 1] as nat
  }

  lemma {:induction false} DigitsRoundTrip(n: nat, k: nat)
    requires n < Pow256(k)
    ensures ValueOf(Digits(n, k)) == n
  {
    if k > 0 {
      DigitsRoundTrip(n / 256, k - 1);
      assert Digits(n, k)[..k - 1] == Digits(n / 256, k - 1);
    }
  }

  // --- the encoding ------------------------------------------------------

  const LENGTH: nat := 8

  function EncodePart(p: Part): seq<Byte> {
    if p.None? then [0] else [1] + Digits(|p.value|, LENGTH) + p.value
  }

  /** The codes of the parts, one after the other. */
  function EncodeWith(code: Part -> seq<Byte>, ps: seq<Part>): seq<Byte> {
    if ps == [] then [] else code(ps[0]) + EncodeWith(code, ps[1..])
  }

  function Encode(ps: seq<Part>): seq<Byte> { EncodeWith(EncodePart, ps) }

  lemma {:induction false} EncodeAppends(code: Part -> seq<Byte>, ps: seq<Part>, p: Part)
    ensures EncodeWith(code, ps + [p]) == EncodeWith(code, ps) + code(p)
  {
    if ps == [] {
      assert [p][1..] == [] && ps + [p] == [p];
    } else {
      EncodeAppends(code, ps[1..], p);
      assert (ps + [p])[1..] == ps[1..] + [p];
    }
  }

  /** encodeGroupKey: append each part to one buffer. */
  method EncodeGroupKey(ps: seq<Part>) returns (buf: seq<Byte>)
    ensures buf == Encode(ps)
  {
    buf := [];
    for i := 0 to |ps|
      invariant buf == Encode(ps[..i])
    {
      assert ps[..i + 1] == ps[..i] + [ps[i]];
      EncodeAppends(EncodePart, ps[..i], ps[i]);
      buf := AppendPart(buf, ps[i]);
    }
    assert ps[..|ps|] == ps;
  }

  /** The sentinel byte; for a string also its length and its bytes. */
  method AppendPart(buf: seq<Byte>, p: Part) returns (r: seq<Byte>)
    ensures r == buf + EncodePart(p)
  {
    if p.None? {
      return buf + [0];
    }
    r := buf + [1];
    r := r + Digits(|p.value|, LENGTH);
    r := r + p.value;
  }

  /** Parts whose lengths fit the prefix. */
  predicate Fits(ps: seq<Part>) {
    forall i :: 0 <= i < |ps| && ps[i].Some? ==> |ps[i].value| < Pow256(LENGTH)
  }

  /** Reading the encoding back from the front. */
  function Decode(bs: seq<Byte>): Option<seq<Part>>
    decreases |bs|
  {
    if bs == [] then Some([])
    else if bs[0] == 0 then Cons(None, Decode(bs[1..]))
    else if bs[0] != 1 || |bs| < 1 + LENGTH then None
    else
      var n := ValueOf(bs[1..1 + LENGTH]);
      if |bs| < 1 + LENGTH + n then None
      else Cons(Some(bs[1 + LENGTH..1 + LENGTH + n]), Decode(bs[1 + LENGTH + n..]))
  }

  function Cons(p: Part, ps: Option<seq<Part>>): Option<seq<Part>> {
    if ps.None? then None else Some([p] + ps.value)
  }

  lemma DecodePart(p: Part, rest: seq<Byte>)
    requires p.Some? ==> |p.value| < Pow256(LENGTH)
    ensures Decode(EncodePart(p) + rest) == Cons(p, Decode(rest))
  {
    var bs := EncodePart(p) + rest;
    if p.None? {
      assert bs[1..] == rest;
    } else {
      DigitsRoundTrip(|p.value|, LENGTH);
      assert bs[1..1 + LENGTH] == Digits(|p.value|, LENGTH);
      assert bs[1 + LENGTH..1 + LENGTH + |p.value|] == p.value;
      assert bs[1 + LENGTH + |p.value|..] == rest;
    }
  }

  /** The encoding can be read back, so distinct key tuples never collide. */
  lemma {:induction false} KeysRoundTrip(ps: seq<Part>)
    requires Fits(ps)
    ensures Decode(Encode(ps)) == Some(ps)
    decreases |ps|
  {
    if ps != [] {
      DecodePart(ps[0], Encode(ps[1..]));
      KeysRoundTrip(ps[1..]);
      assert [ps[0]] + ps[1..] == ps;
    }
  }

  lemma KeysNeverCollide(ps: seq<Part>, qs: seq<Part>)
    requires Fits(ps) && Fits(qs) && Encode(ps) == Encode(qs)
    ensures ps == qs
  {
    KeysRoundTrip(ps);
    KeysRoundTrip(qs);
  }
}
