/*
 * A model of the AESKey structure: a key-type tag and two fixed 32-byte
 * buffers, `key` and `initVector`, both zero at construction.  The
 * operations follow the header as written: only the 128-bit and 256-bit
 * key types have a case in its switches, and setInitVector stores its
 * argument into `key`.
 */
module AESEngine {

  /** The key sizes the header enumerates. */
  datatype AESKeyType = AES_KEY128 | AES_KEY196 | AES_KEY256

  /** Stand-in for the block cipher mode enumeration, which is declared outside
      this model.  The random-key constructor takes one and ignores it. */
  datatype BlockCipherMode = ECB | OtherMode(code: nat)

  /** An unsigned char. */
  newtype byte = b: int | 0 <= b < 256

  /** Size of each of the two buffers of an AESKey. */
  const KeyCapacity: nat := 32

  /** The key length in bytes that FIPS 197, section 5, gives each key size:
      4 * Nk with Nk = 4, 6 or 8 words.  This is the reference the header's
      own length switch is compared with. */
  function StandardKeyBytes(t: AESKeyType): nat
  {
    match t
    case AES_KEY128 => 16
    case AES_KEY196 => 24
    case AES_KEY256 => 32
  }

  /** The number of key bytes the header's switches handle for a key type:
      the standard length for the 128- and 256-bit types, and nothing for
      the 192-bit type, which has no case and falls through. */
  function KeyLength(t: AESKeyType): (n: nat)
    ensures n <= KeyCapacity
    ensures t != AES_KEY196 ==> n == StandardKeyBytes(t)
    ensures n == 0 <==> t == AES_KEY196
  {
    match t
    case AES_KEY128 => 16
    case AES_KEY256 => 32
    case AES_KEY196 => 0
  }

  /** Every byte of `s` from index `n` on is zero. */
  predicate ZeroFrom(s: seq<byte>, n: nat)
  {
    forall i :: n <= i < |s| ==> s[i] == 0
  }

  /** The content of a freshly initialised buffer: 32 zero bytes. */
  function Zeros(): (z: seq<byte>)
    ensures |z| == KeyCapacity && ZeroFrom(z, 0)
    ensures forall s: seq<byte> :: |s| == KeyCapacity && ZeroFrom(s, 0) ==> s == z
  {
    seq(KeyCapacity, _ => 0)
  }

  /** The key buffer after copyKey(data, t) has run on buffer `k`: the first
      KeyLength(t) bytes come from `data`, the others are those of `k`. */
  function CopyKeyBytes(k: seq<byte>, data: seq<byte>, t: AESKeyType): (r: seq<byte>)
    requires |k| == KeyCapacity && |data| >= KeyLength(t)
    ensures |r| == KeyCapacity
    ensures forall i :: 0 <= i < KeyLength(t) ==> r[i] == data[i]
    ensures forall i :: KeyLength(t) <= i < KeyCapacity ==> r[i] == k[i]
  {
    data[..KeyLength(t)] + k[KeyLength(t)..]
  }

  /** A copy keeps the zero tail past the copied length. */
  lemma CopyKeyKeepsZeroTail(k: seq<byte>, data: seq<byte>, t: AESKeyType)
    requires |k| == KeyCapacity && |data| >= KeyLength(t)
    requires ZeroFrom(k, KeyLength(t))
    ensures ZeroFrom(CopyKeyBytes(k, data, t), KeyLength(t))
  {
  }

  /** With the 192-bit type the copy changes nothing. */
  lemma CopyKeyUnsupportedIsIdentity(k: seq<byte>, data: seq<byte>)
    requires |k| == KeyCapacity
    ensures CopyKeyBytes(k, data, AES_KEY196) == k
  {
  }

  /** Two copies with the same type: only the second is visible. */
  lemma CopyKeyLastWins(k: seq<byte>, a: seq<byte>, b: seq<byte>, t: AESKeyType)
    requires |k| == KeyCapacity && |a| >= KeyLength(t) && |b| >= KeyLength(t)
    ensures CopyKeyBytes(CopyKeyBytes(k, a, t), b, t) == CopyKeyBytes(k, b, t)
  {
  }

  /** A valid key buffer is fixed by its first KeyLength(t) bytes. */
  lemma KeyDeterminedByPrefix(k1: seq<byte>, k2: seq<byte>, t: AESKeyType)
    requires |k1| == KeyCapacity && |k2| == KeyCapacity
    requires ZeroFrom(k1, KeyLength(t)) && ZeroFrom(k2, KeyLength(t))
    requires k1[..KeyLength(t)] == k2[..KeyLength(t)]
    ensures k1 == k2
  {
  }

  /** Copying a valid key buffer into fresh zero storage reproduces it
      exactly, which is why the copy constructor yields an equal key. */
  lemma CopyOfValidKeyIsSame(k: seq<byte>, t: AESKeyType)
    requires |k| == KeyCapacity && ZeroFrom(k, KeyLength(t))
    ensures CopyKeyBytes(Zeros(), k, t) == k
  {
    var c := CopyKeyBytes(Zeros(), k, t);
    assert c[..KeyLength(t)] == k[..KeyLength(t)];
    KeyDeterminedByPrefix(c, k, t);
  }

  /** The key buffer after setInitVector has been called with each of `ivs`
      in turn on a key of type `t`: the handled prefix is the last vector's,
      and the bytes past it are never touched. */
  function SetInitVectors(k: seq<byte>, t: AESKeyType, ivs: seq<seq<byte>>): (r: seq<byte>)
    requires |k| == KeyCapacity
    requires forall j :: 0 <= j < |ivs| ==> |ivs[j]| >= KeyLength(t)
    ensures |r| == KeyCapacity
    ensures ivs == [] ==> r == k
    ensures ivs != [] ==> forall i :: 0 <= i < KeyLength(t) ==> r[i] == ivs[|ivs| - 1][i]
    ensures forall i :: KeyLength(t) <= i < KeyCapacity ==> r[i] == k[i]
    decreases |ivs|
  {
    if ivs == [] then k else SetInitVectors(CopyKeyBytes(k, ivs[0], t), t, ivs[1..])
  }

  /** After any series of setInitVector calls the key holds the last vector's
      first KeyLength(t) bytes, and the zero tail is kept. */
  lemma SetInitVectorsLastWins(k: seq<byte>, t: AESKeyType, ivs: seq<seq<byte>>)
    requires |k| == KeyCapacity && ZeroFrom(k, KeyLength(t))
    requires forall j :: 0 <= j < |ivs| ==> |ivs[j]| >= KeyLength(t)
    ensures ivs == [] ==> SetInitVectors(k, t, ivs) == k
    ensures ivs != [] ==> SetInitVectors(k, t, ivs) == CopyKeyBytes(k, ivs[|ivs| - 1], t)
    ensures ZeroFrom(SetInitVectors(k, t, ivs), KeyLength(t))
  {
  }

  /** Stand-in for the random source the header calls: it writes the first
      `length` bytes of `buffer`, here taken from `entropy`, and nothing else. */
  method GenerateRandomSequence(buffer: array<byte>, length: nat, entropy: seq<byte>)
    requires length <= buffer.Length && length <= |entropy|
    modifies buffer
    ensures buffer[..length] == entropy[..length]
    ensures buffer[length..] == old(buffer[length..])
  {
    forall i | 0 <= i < length {
      buffer[i] := entropy[i];
    }
  }

  /** memcpy of `n` bytes from `src` into the start of `dest`. */
  method Memcpy(dest: array<byte>, src: seq<byte>, n: nat)
    requires n <= dest.Length && n <= |src|
    modifies dest
    ensures dest[..] == src[..n] + old(dest[..])[n..]
  {
    forall i | 0 <= i < n {
      dest[i] := src[i];
    }
  }

  class AESKey {
    var keyType: AESKeyType
    const key: array<byte>
    const initVector: array<byte>

    /** Object invariant: two distinct 32-byte buffers; `key` is zero past the
        length its type handles; `initVector` is all zero, since no operation
        writes it. */
    ghost predicate Valid()
      reads this, key, initVector
    {
      key.Length == KeyCapacity && initVector.Length == KeyCapacity && key != initVector &&
      ZeroFrom(key[..], KeyLength(keyType)) &&
      initVector[..] == Zeros()
    }

    /** New key of the given type whose first KeyLength(t) bytes come from the
        random source (here `entropy`); the mode is not recorded. */
    constructor Generate(t: AESKeyType, entropy: seq<byte>, mode: BlockCipherMode := ECB)
      requires |entropy| >= KeyLength(t)
      ensures Valid() && fresh(key) && fresh(initVector)
      ensures keyType == t
      ensures key[..KeyLength(t)] == entropy[..KeyLength(t)]
      ensures ZeroFrom(key[..], KeyLength(t))
      ensures t == AES_KEY196 ==> key[..] == Zeros()
    {
      keyType := t;
      key := new byte[KeyCapacity](_ => 0);
      initVector := new byte[KeyCapacity](_ => 0);
      new;
      match t
      case AES_KEY128 =>
        GenerateRandomSequence(key, 16, entropy);
      case AES_KEY256 =>
        GenerateRandomSequence(key, 32, entropy);
      case AES_KEY196 =>
    }

    /** Copy constructor: the same type and an element-wise equal key. */
    constructor Copy(cpy: AESKey)
      requires cpy.Valid()
      ensures Valid() && fresh(key) && fresh(initVector)
      ensures keyType == cpy.keyType
      ensures key[..] == cpy.key[..]
      ensures initVector[..] == cpy.initVector[..]
    {
      keyType := cpy.keyType;
      key := new byte[KeyCapacity](_ => 0);
      initVector := new byte[KeyCapacity](_ => 0);
      new;
      CopyKey(cpy.key[..], cpy.keyType);
      CopyOfValidKeyIsSame(cpy.key[..], cpy.keyType);
    }

    /** New key of the given type holding the caller's bytes. */
    constructor FromBytes(data: seq<byte>, t: AESKeyType)
      requires |data| >= KeyLength(t)
      ensures Valid() && fresh(key) && fresh(initVector)
      ensures keyType == t
      ensures key[..] == CopyKeyBytes(Zeros(), data, t)
      ensures t == AES_KEY196 ==> key[..] == Zeros()
    {
      keyType := t;
      key := new byte[KeyCapacity](_ => 0);
      initVector := new byte[KeyCapacity](_ => 0);
      new;
      CopyKey(data, t);
      CopyKeyUnsupportedIsIdentity(Zeros(), data);
    }

    /** The key type. */
    function GetType(): (t: AESKeyType)
      reads this
      ensures t == keyType
      ensures KeyLength(t) == GetKeyLength()
    {
      keyType
    }

    /** The key bytes, as a read-only value. */
    function GetKey(): (k: seq<byte>)
      reads this, key
      ensures |k| == key.Length && forall i :: 0 <= i < |k| ==> k[i] == key[i]
      ensures Valid() ==> |k| == KeyCapacity && ZeroFrom(k, GetKeyLength())
    {
      key[..]
    }

    /** The key length in bytes: 16, 32, or 0 for the 192-bit type. */
    function GetKeyLength(): (n: int)
      reads this
      ensures 0 <= n <= KeyCapacity
      ensures keyType != AES_KEY196 ==> n == StandardKeyBytes(keyType)
      ensures keyType == AES_KEY196 ==> n == 0
    {
      KeyLength(keyType)
    }

    /** Meant to set the initialization vector, but copies `iv` into `key`
        through copyKey; type and `initVector` are left as they were. */
    method SetInitVector(iv: seq<byte>)
      requires Valid() && |iv| >= KeyLength(keyType)
      modifies key
      ensures Valid()
      ensures keyType == old(keyType)
      ensures key[..] == CopyKeyBytes(old(key[..]), iv, keyType)
      ensures initVector[..] == old(initVector[..])
    {
      CopyKey(iv, keyType);
    }

    /** Copies the first KeyLength(t) bytes of `data` into `key`. */
    method CopyKey(data: seq<byte>, t: AESKeyType)
      requires key.Length == KeyCapacity && |data| >= KeyLength(t)
      modifies key
      ensures key[..] == CopyKeyBytes(old(key[..]), data, t)
    {
      match t
      case AES_KEY128 =>
        Memcpy(key, data, 16);
      case AES_KEY256 =>
        Memcpy(key, data, 32);
      case AES_KEY196 =>
    }
  }
}
