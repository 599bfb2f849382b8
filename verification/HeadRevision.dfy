/** How a watcher's head revision is stored: a zig-zag varint, written through a buffer of 8 bytes. */
module HeadRevision {
  import opened Wrappers

  newtype Byte = b: int | 0 <= b < 256

  const TWO_55 := 0x80_0000_0000_0000
  const TWO_63 := 0x8000_0000_0000_0000

  predicate IsInt64(x: int) {
    -TWO_63 <= x < TWO_63
  }

  // Zig-zag: the sign goes into the lowest bit.

  function ZigZag(x: int): nat {
    if x >= 0 then 2 * x else -2 * x - 1
  }

  function UnZigZag(u: nat): int {
    if u % 2 == 0 then u / 2 else -(u / 2) - 1
  }

  // Base 128, least significant digit first, the high bit of every byte but the last set.

  function Digits(u: nat): (bytes: seq<Byte>)
    ensures bytes != []
  {
    if u < 128 then [u as Byte] else [(u % 128 + 128) as Byte] + Digits(u / 128)
  }

  function Number(bytes: seq<Byte>): nat {
    if bytes == [] then 0
    else if bytes[0] < 128 then bytes[0] as int
    else (bytes[0] as int - 128) + 128 * Number(bytes[1..])
  }

  /** The digits of a number end with the first byte below 128. */
  predicate Terminated(bytes: seq<Byte>) {
    bytes != [] && bytes[|bytes| - 1] < 128 && forall i :: 0 <= i < |bytes| - 1 ==> bytes[i] >= 128
  }

  function Power(k: nat): (p: nat)
    ensures p > 0
  {
    if k == 0 then 1 else 128 * Power(k - 1)
  }

  lemma {:induction false} DigitsRoundTrip(u: nat)
    ensures Number(Digits(u)) == u && Terminated(Digits(u))
  {
    if u >= 128 {
      DigitsRoundTrip(u / 128);
      assert Digits(u)[1..] == Digits(u / 128);
    }
  }

  lemma {:induction false} DigitsLength(u: nat, k: nat)
    requires k > 0
    ensures |Digits(u)| <= k <==> u < Power(k)
    decreases k
  {
    if u >= 128 && k > 1 {
      DigitsLength(u / 128, k - 1);
    } else if k > 1 {
      assert Power(k) == 128 * Power(k - 1);
    } else {
      assert Power(1) == 128 * Power(0);
    }
  }

  /** A revision fits the buffer of 8 bytes exactly if it is a 56-bit number, sign included. */
  lemma FitsBuffer(rev: int)
    ensures |Digits(ZigZag(rev))| <= 8 <==> -TWO_55 <= rev < TWO_55
  {
    DigitsLength(ZigZag(rev), 8);
    assert Power(8) == 2 * TWO_55;
  }

  /** Reading what was written gives the revision back. */
  lemma RevisionRoundTrip(rev: int)
    ensures UnZigZag(Number(Digits(ZigZag(rev)))) == rev
  {
    DigitsRoundTrip(ZigZag(rev));
  }

  /** The bytes of revisions 300 and -1. */
  lemma Varints()
    ensures Digits(ZigZag(300)) == [0xD8, 0x04] && Digits(ZigZag(-1)) == [0x01]
  {
    assert Digits(600) == [0xD8] + Digits(4);
  }

  /** Write the digits of u into the buffer; None if it is too small, which panics. */
  method PutUvarint(buf: array<Byte>, u: nat) returns (n: Option<nat>)
    modifies buf
    ensures n.Some? <==> |Digits(u)| <= buf.Length
    ensures n.Some? ==> n.value == |Digits(u)| && buf[..n.value] == Digits(u)
  {
    var x, i := u, 0;
    while x >= 128
      invariant 0 <= i <= buf.Length
      invariant Digits(u) == buf[..i] + Digits(x)
    {
      if i == buf.Length {
        return None;
      }
      buf[i] := (x % 128 + 128) as Byte;
      ghost var d := buf[i];
      assert Digits(x) == [d] + Digits(x / 128);
      x := x / 128;
      i := i + 1;
      assert buf[..i] == buf[..i - 1] + [d];
    }
    if i == buf.Length {
      return None;
    }
    buf[i] := x as Byte;
    assert buf[..i + 1] == buf[..i] + [x as Byte];
    return Some(i + 1);
  }

  /** Byte k is the first one below 128. */
  predicate EndsAt(buf: seq<Byte>, k: int) {
    0 <= k < |buf| && buf[k] < 128 && forall i :: 0 <= i < k ==> buf[i] >= 128
  }

  /** What reading the digits gives: 0 if they do not end or exceed 64 bits. */
  ghost predicate IsRead(buf: seq<Byte>, x: nat) {
    && (forall k :: EndsAt(buf, k) ==> x == if k < 9 || (k == 9 && buf[k] <= 1) then Number(buf) else 0)
    && ((forall k :: !EndsAt(buf, k)) ==> x == 0)
  }

  lemma ReadUpTo(buf: seq<Byte>, i: nat)
    requires i <= |buf| && forall k :: 0 <= k < i ==> buf[k] >= 128
    ensures i == |buf| || i >= 10 ==> IsRead(buf, 0)
    ensures i < |buf| && buf[i] < 128 ==> IsRead(buf, if i < 9 || (i == 9 && buf[i] <= 1) then Number(buf) else 0)
  {
    if i < |buf| && buf[i] < 128 {
      assert EndsAt(buf, i) && forall k :: EndsAt(buf, k) ==> k == i;
    } else if i == |buf| || i >= 10 {
      assert forall k :: EndsAt(buf, k) ==> k >= i;
    }
  }

  /** The number is x plus scale times what the bytes from i on stand for. */
  ghost predicate ReadSo(buf: seq<Byte>, i: nat, x: nat, scale: nat) {
    i <= |buf| && Number(buf) == x + scale * Number(buf[i..])
  }

  lemma ReadMore(buf: seq<Byte>, i: nat, x: nat, scale: nat) returns (last: nat, more: nat)
    requires i < |buf| && ReadSo(buf, i, x, scale)
    ensures buf[i] < 128 ==> last == x + scale * buf[i] as int == Number(buf)
    ensures buf[i] >= 128 ==>
              more == x + scale * (buf[i] as int - 128) && ReadSo(buf, i + 1, more, 128 * scale)
  {
    last, more := 0, 0;
    var rest := buf[i..];
    assert rest[0] == buf[i] && rest[1..] == buf[i + 1..];
    if buf[i] < 128 {
      last := x + scale * buf[i] as int;
    } else {
      more := x + scale * (buf[i] as int - 128);
      Distribute(scale, buf[i] as int - 128, Number(rest[1..]));
    }
  }

  lemma Distribute(scale: nat, d: int, tail: int)
    ensures scale * (d + 128 * tail) == scale * d + (128 * scale) * tail
  {
  }

  /** Read the digits of a number. */
  method Uvarint(buf: seq<Byte>) returns (x: nat)
    ensures IsRead(buf, x)
  {
    x := 0;
    var scale: nat := 1;
    for i := 0 to |buf|
      invariant i <= 10 && ReadSo(buf, i, x, scale)
      invariant forall k :: 0 <= k < i ==> buf[k] >= 128
    {
      ReadUpTo(buf, i);
      if i == 10 {
        assert IsRead(buf, 0);
        return 0;
      }
      ghost var last, more := ReadMore(buf, i, x, scale);
      if buf[i] < 128 {
        if i == 9 && buf[i] > 1 {
          return 0;
        }
        x := x + scale * buf[i] as int;
        assert x == Number(buf);
        return;
      }
      x := x + scale * (buf[i] as int - 128);
      scale := 128 * scale;
    }
    ReadUpTo(buf, |buf|);
    x := 0;
  }

  class HeadStore {
    var stored: Option<seq<Byte>>    // the etcd value under the head key of the player

    /** The stored revision, 0 if there is none. */
    ghost function Revision(): int
      reads this
    {
      if stored.None? then 0 else UnZigZag(Number(stored.value))
    }

    ghost predicate Valid()
      reads this
    {
      stored.Some? ==> Terminated(stored.value) && |stored.value| <= 8
    }

    constructor ()
      ensures Valid() && Revision() == 0
    {
      stored := None;
    }

    /** Store a revision; it panics exactly if the revision does not fit, and then nothing changes. */
    method SetHeadRevision(revision: int) returns (panics: bool)
      requires Valid() && IsInt64(revision)
      modifies this
      ensures Valid() && panics == !(-TWO_55 <= revision < TWO_55)
      ensures Revision() == if panics then old(Revision()) else revision
    {
      var buf := new Byte[8];
      var bytesWritten := PutUvarint(buf, ZigZag(revision));
      FitsBuffer(revision);
      if bytesWritten.None? {
        return true;
      }
      DigitsRoundTrip(ZigZag(revision));
      RevisionRoundTrip(revision);
      stored := Some(buf[..bytesWritten.value]);
      panics := false;
    }

    method GetHeadRevision() returns (revision: int)
      requires Valid()
      ensures revision == Revision()
    {
      revision := 0;
      if stored.Some? {
        var u := Uvarint(stored.value);
        assert EndsAt(stored.value, |stored.value| - 1);
        revision := UnZigZag(u);
      }
    }
  }
}
