/**
 The byte string hashed to identify an order event: eight deadline bytes, then the outputs as
 a dynamic array of static four-word tuples, laid out as the section "Formal Specification of
 the Encoding" of the Solidity Contract ABI Specification prescribes.
 */
module OrderEventKey {
  import opened Wrappers
  import opened OrderTypes

  // ----- fixed-width integers

  function Pow256(k: nat): (p: nat)
    ensures p > 0
  {
    if k == 0 then 1 else 256 * Pow256(k - 1)
  }

  /** The low `k` bytes of `n`, most significant first. */
  function BigEndian(n: nat, k: nat): (bytes: seq<Byte>)
    ensures |bytes| == k
    decreases k
  {
    if k == 0 then [] else BigEndian(n / 256, k - 1) + [n % 256]
  }

  function FromBigEndian(bytes: seq<Byte>): (n: nat)
    ensures n < Pow256(|bytes|)
  {
    if bytes == [] then 0
    else FromBigEndian(bytes[..|bytes| - 1]) * 256 + bytes[|bytes| - 1]
  }

  function Reverse(bytes: seq<Byte>): (r: seq<Byte>)
    ensures |r| == |bytes|
    ensures forall i :: 0 <= i < |bytes| ==> r[i] == bytes[|bytes| - 1 - i]
  {
    seq(|bytes|, i requires 0 <= i < |bytes| => bytes[|bytes| - 1 - i])
  }

  lemma {:induction false} BigEndianRoundTrip(n: nat, k: nat)
    requires n < Pow256(k)
    ensures FromBigEndian(BigEndian(n, k)) == n
    decreases k
  {
    if k == 0 {
    } else {
      BigEndianRoundTrip(n / 256, k - 1);
      assert BigEndian(n, k)[..k - 1] == BigEndian(n / 256, k - 1);
    }
  }

  lemma {:induction false} BigEndianCanonical(bytes: seq<Byte>)
    ensures BigEndian(FromBigEndian(bytes), |bytes|) == bytes
  {
    if bytes == [] {
    } else {
      BigEndianCanonical(bytes[..|bytes| - 1]);
    }
  }

  // ----- the encoder

  /** One 32-byte word. */
  function Word(n: nat): (bytes: seq<Byte>)
    ensures |bytes| == 32
  {
    BigEndian(n, 32)
  }

  function EncodeOutput(o: Output): (bytes: seq<Byte>)
    ensures |bytes| == 128
  {
    Word(o.token) + Word(o.amount) + Word(o.recipient) + Word(o.chainId)
  }

  function EncodeOutputs(outputs: seq<Output>): (bytes: seq<Byte>)
    ensures |bytes| == 128 * |outputs|
  {
    if outputs == [] then [] else EncodeOutput(outputs[0]) + EncodeOutputs(outputs[1..])
  }

  /** The deadline in the machine's own byte order. */
  function EncodeDeadline(deadline: U64, littleEndian: bool): (bytes: seq<Byte>)
    ensures |bytes| == 8
  {
    if littleEndian then Reverse(BigEndian(deadline, 8)) else BigEndian(deadline, 8)
  }

  /** The array starts right after the one word that holds its offset. */
  const ARRAY_OFFSET: nat := 32

  /** Deadline bytes, offset of the array, its length, its elements. */
  function EncodeKey(deadline: U64, outputs: seq<Output>, littleEndian: bool): (bytes: seq<Byte>)
    ensures |bytes| == 72 + 128 * |outputs|
  {
    EncodeDeadline(deadline, littleEndian) + Word(ARRAY_OFFSET) + Word(|outputs|) + EncodeOutputs(outputs)
  }

  // ----- a decoder that undoes it

  function DecodeOutput(bytes: seq<Byte>): Option<Output>
    requires |bytes| == 128
  {
    var token := FromBigEndian(bytes[..32]);
    var amount := FromBigEndian(bytes[32..64]);
    var recipient := FromBigEndian(bytes[64..96]);
    var chainId := FromBigEndian(bytes[96..]);
    WordBounds();
    if token < Pow256(20) && recipient < Pow256(20) && chainId < Pow256(4)
    then Some(Output(token, amount, recipient, chainId))
    else None
  }

  function DecodeOutputs(bytes: seq<Byte>): Option<seq<Output>> {
    if bytes == [] then Some([])
    else if |bytes| < 128 then None
    else
      match (DecodeOutput(bytes[..128]), DecodeOutputs(bytes[128..]))
      case (Some(first), Some(rest)) => Some([first] + rest)
      case _ => None
  }

  function DecodeDeadline(bytes: seq<Byte>, littleEndian: bool): U64
    requires |bytes| == 8
  {
    WordBounds();
    FromBigEndian(if littleEndian then Reverse(bytes) else bytes)
  }

  function DecodeKey(bytes: seq<Byte>, littleEndian: bool): Option<(U64, seq<Output>)> {
    if |bytes| < 72 || bytes[8..40] != Word(ARRAY_OFFSET) then None
    else
      match DecodeOutputs(bytes[72..])
      case None => None
      case Some(outputs) =>
        if bytes[40..72] != Word(|outputs|) then None
        else
          Some((DecodeDeadline(bytes[..8], littleEndian), outputs))
  }

  lemma WordBounds()
    ensures Pow256(4) == 0x1_0000_0000
    ensures Pow256(8) == 0x1_0000_0000_0000_0000
    ensures Pow256(20) == 0x1_0000000000_0000000000_0000000000_0000000000
    ensures Pow256(32) == 0x1_0000000000000000_0000000000000000_0000000000000000_0000000000000000
  {
    assert Pow256(4) == 0x1_0000_0000;
    assert Pow256(8) == 0x1_0000_0000_0000_0000;
    assert Pow256(12) == 0x1_0000_0000_0000_0000_0000_0000;
    assert Pow256(16) == 0x1_0000_0000_0000_0000_0000_0000_0000_0000;
    assert Pow256(20) == 0x1_0000000000_0000000000_0000000000_0000000000;
    assert Pow256(24) == 0x1_0000000000000000_0000000000000000_0000000000000000;
    assert Pow256(28) == 0x1_0000000000000000_0000000000000000_0000000000000000_00000000;
  }

  lemma WordInverse(bytes: seq<Byte>)
    requires |bytes| == 32
    ensures Word(FromBigEndian(bytes)) == bytes
  {
    BigEndianCanonical(bytes);
  }

  lemma Split4(a: seq<Byte>, b: seq<Byte>, c: seq<Byte>, d: seq<Byte>, i: nat, j: nat, k: nat)
    requires i == |a| && j == i + |b| && k == j + |c|
    ensures var s := a + b + c + d; s[..i] == a && s[i..j] == b && s[j..k] == c && s[k..] == d
  {
  }

  lemma Join4(s: seq<Byte>, i: nat, j: nat, k: nat)
    requires i <= j <= k <= |s|
    ensures s[..i] + s[i..j] + s[j..k] + s[k..] == s
  {
  }

  lemma DecodeOutputInverse(o: Output)
    ensures DecodeOutput(EncodeOutput(o)) == Some(o)
  {
    WordBounds();
    BigEndianRoundTrip(o.token, 32);
    BigEndianRoundTrip(o.amount, 32);
    BigEndianRoundTrip(o.recipient, 32);
    BigEndianRoundTrip(o.chainId, 32);
    Split4(Word(o.token), Word(o.amount), Word(o.recipient), Word(o.chainId), 32, 64, 96);
  }

  lemma EncodeOutputInverse(bytes: seq<Byte>)
    requires |bytes| == 128 && DecodeOutput(bytes).Some?
    ensures EncodeOutput(DecodeOutput(bytes).value) == bytes
  {
    WordInverse(bytes[..32]);
    WordInverse(bytes[32..64]);
    WordInverse(bytes[64..96]);
    WordInverse(bytes[96..]);
    Join4(bytes, 32, 64, 96);
  }

  lemma {:induction false} DecodeOutputsInverse(outputs: seq<Output>)
    ensures DecodeOutputs(EncodeOutputs(outputs)) == Some(outputs)
  {
    if outputs == [] {
    } else {
      var first, rest := outputs[0], outputs[1..];
      assert outputs == [first] + rest;
      DecodeOutputsInverse(rest);
      DecodeConsInverse(first, rest);
    }
  }

  lemma DecodeConsInverse(first: Output, rest: seq<Output>)
    requires DecodeOutputs(EncodeOutputs(rest)) == Some(rest)
    ensures DecodeOutputs(EncodeOutputs([first] + rest)) == Some([first] + rest)
  {
    DecodeOutputInverse(first);
    EncodeOutputsCons(first, rest);
    DecodeOutputsCons(EncodeOutput(first), EncodeOutputs(rest));
  }

  lemma DecodeOutputsCons(first: seq<Byte>, rest: seq<Byte>)
    requires |first| == 128 && DecodeOutput(first).Some? && DecodeOutputs(rest).Some?
    ensures DecodeOutputs(first + rest) == Some([DecodeOutput(first).value] + DecodeOutputs(rest).value)
  {
    var bytes := first + rest;
    assert bytes[..128] == first && bytes[128..] == rest;
  }

  lemma {:induction false} EncodeOutputsInverse(bytes: seq<Byte>)
    requires DecodeOutputs(bytes).Some?
    ensures EncodeOutputs(DecodeOutputs(bytes).value) == bytes
  {
    if bytes == [] {
    } else {
      var first, rest := DecodeOutputsUncons(bytes);
      EncodeOutputsInverse(bytes[128..]);
      EncodeOutputsCons(first, rest);
      assert bytes == bytes[..128] + bytes[128..];
    }
  }

  lemma DecodeOutputsUncons(bytes: seq<Byte>) returns (first: Output, rest: seq<Output>)
    requires bytes != [] && DecodeOutputs(bytes).Some?
    ensures |bytes| >= 128 && EncodeOutput(first) == bytes[..128]
    ensures DecodeOutputs(bytes[128..]) == Some(rest) && DecodeOutputs(bytes) == Some([first] + rest)
  {
    EncodeOutputInverse(bytes[..128]);
    first, rest := DecodeOutput(bytes[..128]).value, DecodeOutputs(bytes[128..]).value;
  }

  lemma EncodeOutputsCons(first: Output, rest: seq<Output>)
    ensures EncodeOutputs([first] + rest) == EncodeOutput(first) + EncodeOutputs(rest)
  {
    assert ([first] + rest)[1..] == rest;
  }

  lemma DeadlineInverse(deadline: U64, littleEndian: bool)
    ensures DecodeDeadline(EncodeDeadline(deadline, littleEndian), littleEndian) == deadline
  {
    WordBounds();
    BigEndianRoundTrip(deadline, 8);
    assert Reverse(Reverse(BigEndian(deadline, 8))) == BigEndian(deadline, 8);
  }

  lemma DeadlineCanonical(bytes: seq<Byte>, littleEndian: bool)
    requires |bytes| == 8
    ensures EncodeDeadline(DecodeDeadline(bytes, littleEndian), littleEndian) == bytes
  {
    BigEndianCanonical(Reverse(bytes));
    BigEndianCanonical(bytes);
    assert Reverse(Reverse(bytes)) == bytes;
  }

  /** Decoding undoes encoding: nothing about the deadline or the outputs is lost. */
  lemma DecodeKeyInverse(deadline: U64, outputs: seq<Output>, littleEndian: bool)
    ensures DecodeKey(EncodeKey(deadline, outputs, littleEndian), littleEndian) == Some((deadline, outputs))
  {
    DecodeOutputsInverse(outputs);
    DeadlineInverse(deadline, littleEndian);
    Split4(EncodeDeadline(deadline, littleEndian), Word(ARRAY_OFFSET), Word(|outputs|), EncodeOutputs(outputs),
           8, 40, 72);
  }

  /** Encoding undoes decoding: every accepted byte string is the one canonical encoding. */
  lemma EncodeKeyInverse(bytes: seq<Byte>, littleEndian: bool)
    requires DecodeKey(bytes, littleEndian).Some?
    ensures var (deadline, outputs) := DecodeKey(bytes, littleEndian).value;
            EncodeKey(deadline, outputs, littleEndian) == bytes
  {
    EncodeOutputsInverse(bytes[72..]);
    DeadlineCanonical(bytes[..8], littleEndian);
    Join4(bytes, 8, 40, 72);
  }

  lemma EncodeKeyInjective(d1: U64, o1: seq<Output>, d2: U64, o2: seq<Output>, littleEndian: bool)
    ensures EncodeKey(d1, o1, littleEndian) == EncodeKey(d2, o2, littleEndian) <==> d1 == d2 && o1 == o2
  {
    DecodeKeyInverse(d1, o1, littleEndian);
    DecodeKeyInverse(d2, o2, littleEndian);
  }

  // ----- the layout, word by word

  lemma {:induction false} OutputAt(outputs: seq<Output>, i: nat)
    requires i < |outputs|
    ensures EncodeOutputs(outputs)[128 * i..128 * i + 128] == EncodeOutput(outputs[i])
    decreases i
  {
    var first, rest := EncodeOutput(outputs[0]), EncodeOutputs(outputs[1..]);
    if i == 0 {
      SliceFirst(first, rest);
    } else {
      OutputAt(outputs[1..], i - 1);
      SliceRest(first, rest, 128 * (i - 1));
    }
  }

  lemma SliceFirst(first: seq<Byte>, rest: seq<Byte>)
    requires |first| == 128
    ensures (first + rest)[0..128] == first
  {
  }

  lemma SliceRest(first: seq<Byte>, rest: seq<Byte>, from: nat)
    requires |first| == 128 && from + 128 <= |rest|
    ensures (first + rest)[from + 128..from + 256] == rest[from..from + 128]
  {
  }

  lemma OutputWords(o: Output)
    ensures FromBigEndian(EncodeOutput(o)[..32]) == o.token
    ensures FromBigEndian(EncodeOutput(o)[32..64]) == o.amount
    ensures FromBigEndian(EncodeOutput(o)[64..96]) == o.recipient
    ensures FromBigEndian(EncodeOutput(o)[96..]) == o.chainId
  {
    WordBounds();
    BigEndianRoundTrip(o.token, 32);
    BigEndianRoundTrip(o.amount, 32);
    BigEndianRoundTrip(o.recipient, 32);
    BigEndianRoundTrip(o.chainId, 32);
    Split4(Word(o.token), Word(o.amount), Word(o.recipient), Word(o.chainId), 32, 64, 96);
  }

  /** The deadline in 8 bytes, then words: 32, the number of outputs, and four for each output. */
  lemma KeyLayout(deadline: U64, outputs: seq<Output>, i: nat)
    requires |outputs| < 0x1_0000_0000_0000_0000
    ensures var bytes := EncodeKey(deadline, outputs, false);
      && |bytes| == 72 + 128 * |outputs|
      && FromBigEndian(bytes[..8]) == deadline
      && FromBigEndian(bytes[8..40]) == 32
      && FromBigEndian(bytes[40..72]) == |outputs|
      && (i < |outputs| ==>
            var words := bytes[72..][128 * i..128 * i + 128];
            && FromBigEndian(words[..32]) == outputs[i].token
            && FromBigEndian(words[32..64]) == outputs[i].amount
            && FromBigEndian(words[64..96]) == outputs[i].recipient
            && FromBigEndian(words[96..]) == outputs[i].chainId)
    ensures EncodeKey(deadline, outputs, true)[..8] == Reverse(EncodeKey(deadline, outputs, false)[..8])
    ensures EncodeKey(deadline, outputs, true)[8..] == EncodeKey(deadline, outputs, false)[8..]
  {
    WordBounds();
    BigEndianRoundTrip(deadline, 8);
    BigEndianRoundTrip(32, 32);
    BigEndianRoundTrip(|outputs|, 32);
    Split4(EncodeDeadline(deadline, false), Word(ARRAY_OFFSET), Word(|outputs|), EncodeOutputs(outputs), 8, 40, 72);
    TailAfter(EncodeDeadline(deadline, false), EncodeDeadline(deadline, true), Word(ARRAY_OFFSET), Word(|outputs|),
              EncodeOutputs(outputs));
    if i < |outputs| {
      OutputAt(outputs, i);
      OutputWords(outputs[i]);
    }
  }

  lemma TailAfter(a: seq<Byte>, a': seq<Byte>, b: seq<Byte>, c: seq<Byte>, d: seq<Byte>)
    requires |a| == |a'| == 8
    ensures (a + b + c + d)[8..] == (a' + b + c + d)[8..] && (a' + b + c + d)[..8] == a'
  {
    assert a + b + c + d == a + (b + c + d) && a' + b + c + d == a' + (b + c + d);
  }

  // ----- the key

  /** How a byte string becomes an order-event key: the hash function and the byte order. */
  datatype Hasher = Hasher(keccak: seq<Byte> -> Hash, littleEndian: bool)

  ghost predicate CollisionFree(hasher: Hasher) {
    forall a: seq<Byte>, b: seq<Byte> :: hasher.keccak(a) == hasher.keccak(b) ==> a == b
  }

  function KeyOf(hasher: Hasher, deadline: U64, outputs: seq<Output>): Hash {
    hasher.keccak(EncodeKey(deadline, outputs, hasher.littleEndian))
  }

  /** Barring hash collisions, equal keys mean equal deadlines and equal outputs. */
  lemma KeyIdentifiesOrder(hasher: Hasher, d1: U64, o1: seq<Output>, d2: U64, o2: seq<Output>)
    requires CollisionFree(hasher)
    ensures KeyOf(hasher, d1, o1) == KeyOf(hasher, d2, o2) <==> d1 == d2 && o1 == o2
  {
    EncodeKeyInjective(d1, o1, d2, o2, hasher.littleEndian);
  }
}
