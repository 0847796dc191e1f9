# AESKey: a verified model of the key container of CPPEncrypt's AES engine

The AES part of CPPEncrypt declares an `AESEngine` class and implements one
structure, `AESKey`, in `include/AESEngine.h`. An `AESKey` holds a key-type tag
(`AES_KEY128`, `AES_KEY196` or `AES_KEY256`) and two fixed 32-byte buffers,
`key` and `initVector`. Both buffers start out all zero. The structure has a
constructor that fills the key from a random source, one that copies
caller-supplied bytes, and a copy constructor. It also has the queries
`getType`, `getKey` and `getKeyLength`, the private copier `copyKey`, and
`setInitVector`.

The model is one module, `AESEngine` (file `AESKey.dfy`). `AESKey` is a Dafny
class with a `keyType` field and two `array<byte>` fields of length 32.
`byte` is a newtype for `unsigned char`. Each operation is a constructor,
method or function of the class. `CopyKeyBytes` is a function on sequences
that states what a copy does to the key buffer, and the methods are proved
against it. The object invariant `Valid()` says three things:

- the two buffers are distinct and 32 bytes long;
- `key` is zero past the length its type handles;
- `initVector` is all zero.

Every constructor establishes `Valid()` and `SetInitVector` preserves it.

The model follows the header as written, including three behaviours that look
unintended:

- `AES_KEY196` has no case of its own in any of the three switches. `getKeyLength` returns 0 for it,
  `copyKey` copies nothing, and the random constructor writes nothing, so such
  a key stays all zero. `StandardKeyBytes` gives the FIPS 197 section 5 lengths
  (16, 24 and 32 bytes) as a reference, and `KeyLength` is stated against it.
- `setInitVector` calls `copyKey`, so it overwrites the first bytes of `key`.
  No operation ever writes `initVector`.
- The random constructor's `mode` argument, `ECB` by default, is not stored anywhere.

The random source `generateRandomSequence` is declared in a header that is not
part of this model. It is a method parameter here: `entropy` stands for the
bytes the source produces, and `GenerateRandomSequence` writes them into the
first `length` bytes of the buffer. Every contract that mentions `entropy`
holds for all possible values of it.

## Model

| member | source | states |
|---|---|---|
| `AESEngine.KeyLength` | include/AESEngine.h:80-89 | the handled length is at most 32 bytes; it equals the FIPS 197 length for the 128- and 256-bit types; it is 0 exactly for the 192-bit type |
| `AESEngine.Zeros` | include/AESEngine.h:104-105 | the initial buffer content is 32 zero bytes, and it is the only 32-byte sequence that is zero everywhere |
| `AESEngine.CopyKeyBytes` | include/AESEngine.h:113-122 | after a copy with type t, bytes 0 to KeyLength(t) of the key are those of the data, and the remaining bytes up to 32 are unchanged |
| `AESEngine.CopyKeyKeepsZeroTail` | include/AESEngine.h:113-121 | a copy keeps the key zero past the handled length, which is the key half of the object invariant |
| `AESEngine.CopyKeyUnsupportedIsIdentity` | include/AESEngine.h:113-121 | a copy with the 192-bit type leaves the key buffer exactly as it was |
| `AESEngine.CopyKeyLastWins` | include/AESEngine.h:113-121 | two copies with the same type leave the same buffer as the second copy alone |
| `AESEngine.KeyDeterminedByPrefix` | include/AESEngine.h:104 | two 32-byte key buffers that are zero past the handled length and agree on the handled prefix are equal |
| `AESEngine.CopyOfValidKeyIsSame` | include/AESEngine.h:45-49 | copying a valid key buffer into fresh zero storage reproduces the whole buffer, not only the copied prefix |
| `AESEngine.SetInitVectors` | include/AESEngine.h:94-96 | a series of setInitVector calls keeps the key 32 bytes long; with no call the key is unchanged; otherwise the handled prefix is the last vector's; the bytes past the handled length are never touched |
| `AESEngine.SetInitVectorsLastWins` | include/AESEngine.h:94-96 | after any series of setInitVector calls the key is the initial key overwritten by the last vector's handled prefix (unchanged if there were none), and the zero tail is kept |
| `AESEngine.GenerateRandomSequence` | include/AESEngine.h:30-33 | stand-in for the random source: the first `length` bytes come from the source and the rest of the buffer is unchanged |
| `AESEngine.Memcpy` | include/AESEngine.h:116-119 | the first n bytes of the destination become those of the source and the rest is unchanged |
| `AESEngine.AESKey.Generate` | include/AESEngine.h:25-39 | the type is the argument; exactly the handled prefix comes from the random source and the rest is zero; a 192-bit key is all zero; the invariant holds; the mode defaults to ECB and is not recorded |
| `AESEngine.AESKey.Copy` | include/AESEngine.h:45-49 | the new key has the same type and element-wise equal `key` and `initVector` buffers, in fresh storage, and satisfies the invariant |
| `AESEngine.AESKey.FromBytes` | include/AESEngine.h:56-60 | the type is the argument; the key is zero storage with the handled prefix copied from the data; a 192-bit key stays all zero; the invariant holds |
| `AESEngine.AESKey.GetType` | include/AESEngine.h:65-67 | the returned type is the stored one, and its handled length is what getKeyLength reports |
| `AESEngine.AESKey.GetKey` | include/AESEngine.h:73-75 | the returned bytes are element-wise the key buffer; for a valid key they are 32 bytes and zero past the handled length |
| `AESEngine.AESKey.GetKeyLength` | include/AESEngine.h:80-89 | the result lies between 0 and 32; it is the FIPS 197 length for the 128- and 256-bit types and 0 for the 192-bit type |
| `AESEngine.AESKey.SetInitVector` | include/AESEngine.h:94-96 | the vector's handled prefix overwrites the key; the type and `initVector` are unchanged; the invariant is preserved |
| `AESEngine.AESKey.CopyKey` | include/AESEngine.h:113-122 | the key buffer becomes CopyKeyBytes of its old contents, and nothing else changes |

## Left out

- `generateRandomSequence`: its declaring header is not part of this model. It is represented by the caller-supplied `entropy` bytes, so unpredictability is not modelled.
- `AESEngine` constructor and destructor: they only store and later `delete` a raw pointer to a key. Ownership and deallocation have no counterpart in Dafny's memory model.
- `AESEngine::getOutputTextSize`, `encyrptText`, `decryptText`: they are declared without bodies in the header, so there is no behaviour to model. The AES rounds, key expansion, padding and modes of operation appear in no file of this model.
- `CryptoEngine` and `BlockCipherMode`: they come from a header that is not part of this model. `BlockCipherMode` is a placeholder datatype.
- `getKey` returns a `const` pointer into the structure. The model returns the key's contents as a sequence, so aliasing and constness are not captured.
- `memcpy` from a caller pointer: the model takes the data as a sequence and requires it to hold at least the copied length. Reading past the end of a shorter buffer, which is undefined behaviour in C++, is not modelled.
- The implicit copy-assignment operator of the structure is not modelled.
