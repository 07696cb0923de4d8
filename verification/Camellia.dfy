/** The cipher as its users see it: set a key, then encrypt and decrypt blocks. */
module Camellia {
  import opened Words
  import opened CamelliaCipher
  import opened CamelliaRounds
  import opened CamelliaKeys

  /** Which rounds a key length asks for: 24 entries for 128 bits, 32 for 192 and 256. */
  function MaxFor(keyLength: nat): nat { if keyLength == 16 then 24 else 32 }

  predicate GoodLength(n: nat) { n == 16 || n == 24 || n == 32 }

  /** The subkeys RFC 3713 derives from a user key. */
  function Schedule(t: Tables, key: seq<bv8>): (s: seq<Half>)
    requires GoodLength(|key|)
    ensures |s| == MaxFor(|key|) + 2
  {
    if |key| == 16 then Schedule128(t, key)
    else if |key| == 24 then Schedule256(t, KeyBlock(key, 0), Kr192(key))
    else Schedule256(t, KeyBlock(key, 0), KeyBlock(key, 16))
  }

  /** Camellia of RFC 3713 under a user key. */
  function Cipher(t: Tables, key: seq<bv8>, m: Block): Block
    requires GoodLength(|key|)
  {
    Textbook(t, Schedule(t, key), MaxFor(|key|), m)
  }

  /** struct camellia_ctx: the key length and the table the setup left. */
  class Context {
    const t: Tables
    var keyLength: nat
    const keyTable: array<Half>
    ghost var key: seq<bv8>

    ghost predicate Keyed()
      reads this, keyTable
    {
      && keyTable.Length == 34
      && GoodLength(|key|) && keyLength == |key|
      && TableFor(keyTable[..], Schedule(t, key), MaxFor(|key|))
    }

    constructor (t: Tables)
      ensures this.t == t && keyTable.Length == 34 && fresh(keyTable)
    {
      this.t := t;
      keyLength := 0;
      keyTable := new Half[34];
      key := [];
    }

    /** camellia_set_key: refuses other lengths and then leaves the context alone. */
    method SetKey(inKey: seq<bv8>) returns (ok: bool)
      requires keyTable.Length == 34
      modifies this, keyTable
      ensures ok <==> GoodLength(|inKey|)
      ensures ok ==> Keyed() && key == inKey
      ensures !ok ==> keyLength == old(keyLength) && key == old(key) && keyTable[..] == old(keyTable[..])
    {
      hide Schedule128, Schedule256, KeyBlock, Kr192, TableFor;
      ok := GoodLength(|inKey|);
      if !ok { return; }
      keyLength := |inKey|;
      key := inKey;
      match keyLength
      case 16 => Setup128(t, inKey, keyTable);
      case 24 => Setup192(t, inKey, keyTable);
      case _ => Setup256(t, inKey, keyTable);
    }

    /** camellia_encrypt computes the standard's cipher. */
    method EncryptBlock(src: Block) returns (dst: Block)
      requires Keyed()
      ensures dst == Cipher(t, key, src)
      ensures dst == Swap(Encrypt(t, keyTable[..], MaxFor(keyLength), src))
    {
      hide Schedule, TableFor, Textbook, Encrypt;
      var tmp := new Word[4] [src.a.l, src.a.r, src.b.l, src.b.r];
      assert Load(tmp[..]) == src;
      DoEncrypt(t, keyTable, tmp, MaxFor(keyLength));
      dst := Block(Half(tmp[2], tmp[3]), Half(tmp[0], tmp[1]));
      assert dst == Swap(Load(tmp[..]));
    }

    /** camellia_decrypt undoes camellia_encrypt. */
    method DecryptBlock(src: Block) returns (dst: Block)
      requires Keyed()
      ensures Cipher(t, key, dst) == src
      ensures forall m: Block | Cipher(t, key, m) == src :: m == dst
    {
      hide Schedule, TableFor, Textbook, Encrypt, Decrypt;
      var tmp := new Word[4] [src.a.l, src.a.r, src.b.l, src.b.r];
      assert Load(tmp[..]) == src;
      var max := MaxFor(keyLength);
      ghost var tab := keyTable[..];
      DoDecrypt(t, keyTable, tmp, max);
      dst := Block(Half(tmp[2], tmp[3]), Half(tmp[0], tmp[1]));
      assert dst == Swap(Decrypt(t, tab, max, src)) by { assert dst == Swap(Load(tmp[..])); }
      forall m: Block
        ensures Cipher(t, key, m) == Swap(Encrypt(t, tab, max, m))
        ensures Cipher(t, key, m) == src ==> m == dst
      {
        EncryptIsTextbook(t, Schedule(t, key), max, tab, m);
        DecryptUndoesEncrypt(t, tab, max, m);
      }
      EncryptUndoesDecrypt(t, tab, max, src);
    }
  }
}
