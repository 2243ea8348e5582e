/** Parameters and messages as bytes: lists of ints, floats and C strings packed one after another, and requests
    framed as a header of fixed size and a body of the length it gives. */
module Wire {

  newtype Byte = x: int | 0 <= x < 256

  type Int32 = x: int | -0x8000_0000 <= x < 0x8000_0000

  type UInt32 = x: int | 0 <= x < 0x1_0000_0000

  /** Four bytes as the host lays them out, the lowest first. */
  function Bytes4(u: UInt32): (b: seq<Byte>)
    ensures |b| == 4
  {
    [(u % 256) as Byte, (u / 0x100 % 256) as Byte, (u / 0x1_0000 % 256) as Byte, (u / 0x100_0000) as Byte]
  }

  function Number4(b: seq<Byte>): UInt32
    requires |b| == 4
  {
    b[0] as int + 0x100 * b[1] as int + 0x1_0000 * b[2] as int + 0x100_0000 * b[3] as int
  }

  function Unsigned(n: Int32): UInt32
  {
    if n < 0 then n + 0x1_0000_0000 else n
  }

  function Signed(u: UInt32): Int32
  {
    if u < 0x8000_0000 then u else u - 0x1_0000_0000
  }

  lemma Bytes4RoundTrip(u: UInt32)
    ensures Number4(Bytes4(u)) == u
  {
    var q := u / 0x100;
    var r := q / 0x100;
    assert u == 0x100 * q + u % 0x100;
    assert q == 0x100 * r + q % 0x100;
    assert r == 0x100 * (r / 0x100) + r % 0x100;
    assert u / 0x1_0000 == r;
    assert u / 0x100_0000 == r / 0x100;
  }

  lemma IntRoundTrip(n: Int32)
    ensures Signed(Number4(Bytes4(Unsigned(n)))) == n
  {
    Bytes4RoundTrip(Unsigned(n));
  }

  // ---- lists of parameters ----

  /** A float is its four bytes; a string may hold any bytes. */
  datatype Value = Int(n: Int32) | Float(bits: UInt32) | Str(chars: seq<Byte>)

  datatype Type = IntType | FloatType | StringType

  function TypeOf(v: Value): Type
  {
    match v case Int(_) => IntType case Float(_) => FloatType case Str(_) => StringType
  }

  function TypesOf(vs: seq<Value>): seq<Type>
  {
    seq(|vs|, i requires 0 <= i < |vs| => TypeOf(vs[i]))
  }

  /** The length of a C string: up to the first NUL, or all of it. */
  function StrLen(s: seq<Byte>): (n: nat)
    ensures n <= |s| && 0 !in s[..n] && (n < |s| ==> s[n] == 0)
  {
    if s == [] || s[0] == 0 then 0 else 1 + StrLen(s[1..])
  }

  lemma {:induction false} StrLenIs(s: seq<Byte>, n: nat)
    requires n <= |s| && (forall k :: 0 <= k < n ==> s[k] != 0) && (n < |s| ==> s[n] == 0)
    ensures StrLen(s) == n
  {
    if n > 0 {
      StrLenIs(s[1..], n - 1);
    }
  }

  function Serialized(v: Value): seq<Byte>
  {
    match v
    case Int(n) => Bytes4(Unsigned(n))
    case Float(bits) => Bytes4(bits)
    case Str(chars) => chars[..StrLen(chars)] + [0]
  }

  function Packed(vs: seq<Value>): seq<Byte>
  {
    if vs == [] then [] else Serialized(vs[0]) + Packed(vs[1..])
  }

  datatype Read<T> = Got(value: T, size: nat) | Overrun

  /** One value from the front of a buffer; a string without its NUL runs over the end. */
  function Deserialized(b: seq<Byte>, t: Type): (r: Read<Value>)
    ensures r.Got? ==> 0 < r.size <= |b| && TypeOf(r.value) == t
  {
    match t
    case IntType => if |b| < 4 then Overrun else Got(Int(Signed(Number4(b[..4]))), 4)
    case FloatType => if |b| < 4 then Overrun else Got(Float(Number4(b[..4])), 4)
    case StringType => if StrLen(b) == |b| then Overrun else Got(Str(b[..StrLen(b)]), StrLen(b) + 1)
  }

  function Parsed(b: seq<Byte>, ts: seq<Type>): Read<seq<Value>>
  {
    if ts == [] then Got([], 0) else
      match Deserialized(b, ts[0])
      case Overrun => Overrun
      case Got(v, n) =>
        match Parsed(b[n..], ts[1..])
        case Overrun => Overrun
        case Got(vs, m) => Got([v] + vs, n + m)
  }

  /** What a receiver gets to see of a value: of a string, what is before its first NUL. */
  function Seen(v: Value): Value
  {
    match v
    case Str(chars) => Str(chars[..StrLen(chars)])
    case _ => v
  }

  function AllSeen(vs: seq<Value>): (r: seq<Value>)
    ensures |r| == |vs|
  {
    if vs == [] then [] else [Seen(vs[0])] + AllSeen(vs[1..])
  }

  predicate NulFree(v: Value)
  {
    v.Str? ==> 0 !in v.chars
  }

  lemma {:induction false} StrLenOfTerminated(s: seq<Byte>, rest: seq<Byte>)
    requires 0 !in s
    ensures StrLen(s + [0] + rest) == |s| && StrLen(s) == |s|
  {
    if s != [] {
      StrLenOfTerminated(s[1..], rest);
      assert (s + [0] + rest)[1..] == s[1..] + [0] + rest;
    }
  }

  lemma OneRoundTrip(v: Value, rest: seq<Byte>)
    ensures Deserialized(Serialized(v) + rest, TypeOf(v)) == Got(Seen(v), |Serialized(v)|)
  {
    var b := Serialized(v) + rest;
    match v {
      case Int(n) =>
        assert b[..4] == Bytes4(Unsigned(n));
        IntRoundTrip(n);
      case Float(bits) =>
        assert b[..4] == Bytes4(bits);
        Bytes4RoundTrip(bits);
      case Str(chars) =>
        StrLenOfTerminated(chars[..StrLen(chars)], rest);
        assert b[..StrLen(chars)] == chars[..StrLen(chars)];
    }
  }

  lemma ParsedFirst(b: seq<Byte>, ts: seq<Type>)
    requires ts != [] && Deserialized(b, ts[0]).Got?
    ensures var r := Deserialized(b, ts[0]);
      Parsed(b, ts) == match Parsed(b[r.size..], ts[1..])
                       case Overrun => Overrun
                       case Got(vs, m) => Got([r.value] + vs, r.size + m)
  {
  }

  /** Parsing what was packed, whatever follows it, with the same types gives back what a receiver can see of every
      value, and takes as many bytes as were packed. */
  lemma {:induction false} PackRoundTrip(vs: seq<Value>, rest: seq<Byte>)
    ensures Parsed(Packed(vs) + rest, TypesOf(vs)) == Got(AllSeen(vs), |Packed(vs)|)
  {
    if vs != [] {
      var one, others := Serialized(vs[0]), Packed(vs[1..]);
      assert Packed(vs) == one + others && AllSeen(vs) == [Seen(vs[0])] + AllSeen(vs[1..]);
      assert TypesOf(vs)[1..] == TypesOf(vs[1..]) && TypesOf(vs)[0] == TypeOf(vs[0]);
      OneRoundTrip(vs[0], others + rest);
      PackRoundTrip(vs[1..], rest);
      hide *;
      var b := one + others + rest;
      assert b == one + (others + rest) && b[|one|..] == others + rest;
      ParsedFirst(b, TypesOf(vs));
    }
  }

  /** What comes back is what was sent exactly when no string holds a NUL. */
  lemma {:induction false} SeenIsSentIff(vs: seq<Value>)
    ensures AllSeen(vs) == vs <==> forall i :: 0 <= i < |vs| ==> NulFree(vs[i])
  {
    if vs != [] {
      SeenIsSentIff(vs[1..]);
      assert vs == [vs[0]] + vs[1..];
      assert Seen(vs[0]) == vs[0] <==> NulFree(vs[0]) by {
        if vs[0].Str? && NulFree(vs[0]) {
          StrLenOfTerminated(vs[0].chars, []);
        }
      }
      assert AllSeen(vs)[0] == Seen(vs[0]) && AllSeen(vs)[1..] == AllSeen(vs[1..]);
      assert (forall i :: 0 <= i < |vs| ==> NulFree(vs[i]))
        <==> NulFree(vs[0]) && forall i :: 0 <= i < |vs[1..]| ==> NulFree(vs[1..][i]) by {
        if NulFree(vs[0]) && forall i :: 0 <= i < |vs[1..]| ==> NulFree(vs[1..][i]) {
          forall i | 0 <= i < |vs| ensures NulFree(vs[i]) {
            assert i > 0 ==> vs[i] == vs[1..][i - 1];
          }
        }
        if forall i :: 0 <= i < |vs| ==> NulFree(vs[i]) {
          forall i | 0 <= i < |vs[1..]| ensures NulFree(vs[1..][i]) {
            assert vs[1..][i] == vs[i + 1];
          }
        }
      }
    }
  }

  // ---- in buffers ----

  /** Buffer b with s written at offset `at`. */
  function Written(b: seq<Byte>, at: nat, s: seq<Byte>): (r: seq<Byte>)
    requires at + |s| <= |b|
    ensures |r| == |b|
  {
    b[..at] + s + b[at + |s|..]
  }

  method MemCpy(out: array<Byte>, at: nat, s: seq<Byte>)
    requires at + |s| <= out.Length
    modifies out
    ensures out[..] == Written(old(out[..]), at, s)
  {
    var i := 0;
    while i < |s|
      invariant 0 <= i <= |s|
      invariant forall k :: 0 <= k < out.Length ==> out[k] == if at <= k < at + i then s[k - at] else old(out[k])
    {
      out[at + i] := s[i];
      i := i + 1;
    }
  }

  /** Copies up to and with the NUL. */
  method StrCpy(out: array<Byte>, at: nat, s: seq<Byte>) returns (size: nat)
    requires at + StrLen(s) + 1 <= out.Length
    modifies out
    ensures size == StrLen(s) + 1
    ensures out[..] == Written(old(out[..]), at, s[..StrLen(s)] + [0])
  {
    var i := 0;
    while i < |s| && s[i] != 0
      invariant 0 <= i <= StrLen(s) && forall k :: 0 <= k < i ==> s[k] != 0
      invariant forall k :: 0 <= k < out.Length ==> out[k] == if at <= k < at + i then s[k - at] else old(out[k])
    {
      out[at + i] := s[i];
      i := i + 1;
    }
    StrLenIs(s, i);
    out[at + i] := 0;
    size := i + 1;
  }

  method Serialize(out: array<Byte>, at: nat, v: Value) returns (size: nat)
    requires at + |Serialized(v)| <= out.Length
    modifies out
    ensures size == |Serialized(v)| && out[..] == Written(old(out[..]), at, Serialized(v))
  {
    match v {
      case Int(n) =>
        MemCpy(out, at, Bytes4(Unsigned(n)));
        size := 4;
      case Float(bits) =>
        MemCpy(out, at, Bytes4(bits));
        size := 4;
      case Str(chars) =>
        size := StrCpy(out, at, chars);
    }
  }

  lemma WrittenTwice(b: seq<Byte>, at: nat, s: seq<Byte>, t: seq<Byte>)
    requires at + |s| + |t| <= |b|
    ensures Written(Written(b, at, s), at + |s|, t) == Written(b, at, s + t)
  {
  }

  /** Packs the first value, then the others behind it. */
  method PackParam(out: array<Byte>, at: nat, vs: seq<Value>) returns (size: nat)
    requires at + |Packed(vs)| <= out.Length
    modifies out
    ensures size == |Packed(vs)| && out[..] == Written(old(out[..]), at, Packed(vs))
    decreases |vs|
  {
    if vs == [] {
      return 0;
    }
    WrittenTwice(out[..], at, Serialized(vs[0]), Packed(vs[1..]));
    var offset := Serialize(out, at, vs[0]);
    var more := PackParam(out, at + offset, vs[1..]);
    size := offset + more;
  }

  method Deserialize(b: array<Byte>, at: nat, t: Type) returns (v: Value, size: nat)
    requires at <= b.Length && Deserialized(b[at..], t).Got?
    ensures Got(v, size) == Deserialized(b[at..], t)
  {
    match t {
      case IntType =>
        assert b[at..][..4] == b[at..at + 4];
        v, size := Int(Signed(Number4(b[at..at + 4]))), 4;
      case FloatType =>
        assert b[at..][..4] == b[at..at + 4];
        v, size := Float(Number4(b[at..at + 4])), 4;
      case StringType =>
        ghost var n := StrLen(b[at..]);
        var i := 0;
        while b[at + i] != 0
          invariant 0 <= i <= n && forall k :: at <= k < at + i ==> b[k] != 0
          decreases n - i
        {
          assert b[at..][n] == 0;
          i := i + 1;
        }
        StrLenIs(b[at..], i);
        assert b[at..][..n] == b[at..at + n];
        v, size := Str(b[at..at + i]), i + 1;
    }
  }

  lemma ParsedBoth(b: seq<Byte>, ts: seq<Type>)
    requires ts != [] && Parsed(b, ts).Got?
    ensures Deserialized(b, ts[0]).Got?
    ensures var r := Deserialized(b, ts[0]);
      && r.size <= |b|
      && Parsed(b[r.size..], ts[1..]).Got?
      && Parsed(b, ts)
         == Got([r.value] + Parsed(b[r.size..], ts[1..]).value, r.size + Parsed(b[r.size..], ts[1..]).size)
  {
  }

  /** Parses the first value, then the others behind it. */
  method ParseParam(b: array<Byte>, at: nat, ts: seq<Type>) returns (vs: seq<Value>, size: nat)
    requires at <= b.Length && Parsed(b[at..], ts).Got?
    ensures Got(vs, size) == Parsed(b[at..], ts)
    decreases |ts|
  {
    if ts == [] {
      vs, size := [], 0;
    } else {
      ParsedBoth(b[at..], ts);
      hide *;
      var v, offset := Deserialize(b, at, ts[0]);
      var next := at + offset;
      assert b[at..][offset..] == b[next..];
      var more, rest := ParseParam(b, next, ts[1..]);
      vs, size := [v] + more, offset + rest;
    }
  }
}
