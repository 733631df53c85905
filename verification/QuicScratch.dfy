/** The per-CPU scratch area. The SHA state, the AES round keys and the extracted server name share memory, so
    using one of them leaves arbitrary bytes in the others. */
module QuicScratch {
  import opened Aes
  import opened Sha256
  import opened QuicKeys

  const SNI_SIZE: nat := 150
  const PKT_SIZE: nat := 1024

  class Scratch {
    const sha: Sha256Buff
    const tmp: array<byte>
    const secret: array<byte>
    const aes: AesCtx
    const sni: array<byte>
    var sniLen: nat
    const quicKey: array<byte>
    const quicIv: array<byte>
    const quicHp: array<byte>
    const pkt: array<byte>

    ghost predicate Sizes() {
      && tmp.Length == 64 && secret.Length == 64 && sni.Length == SNI_SIZE && pkt.Length == PKT_SIZE
      && quicKey.Length == 16 && quicIv.Length == 16 && quicHp.Length == 16 && aes.roundKey.Length == 176
    }

    ghost predicate Apart() {
      && tmp != secret && tmp != quicKey && tmp != quicIv && tmp != quicHp && secret != quicKey && secret != quicIv &&
        secret != quicHp
      && quicKey != quicIv && quicKey != quicHp && quicIv != quicHp
      && aes.roundKey != quicKey && aes.roundKey != quicIv && aes.roundKey != quicHp && aes.roundKey != pkt &&
        aes.roundKey != sni
      && pkt != sni && pkt != quicIv && pkt != quicKey && pkt != quicHp && sni != quicIv && sni != quicKey &&
        sni != quicHp
    }

    ghost predicate Valid() {
      sha.Valid() && Sizes() && Apart()
    }

    /** The memory that the phases share. */
    ghost function Shared(): set<object> {
      {sha.h, sha.w, sha.tv, tmp, secret, aes, aes.roundKey, sni}
    }

    constructor ()
      ensures Valid() && fresh(Shared()) && fresh({quicKey, quicIv, quicHp, pkt})
    {
      sha := new Sha256Buff();
      aes := new AesCtx();
      tmp := new byte[64](_ => 0);
      secret := new byte[64](_ => 0);
      sni := new byte[SNI_SIZE](_ => 0);
      quicKey := new byte[16](_ => 0);
      quicIv := new byte[16](_ => 0);
      quicHp := new byte[16](_ => 0);
      pkt := new byte[PKT_SIZE](_ => 0);
      sniLen := 0;
    }

    // ---- keys ----

    /** load_const. */
    method LoadConst(block: array<byte>, c: Constant)
      requires block.Length == 64
      modifies block
      ensures block[..] == Padded(ConstantBytes(c))
    {
      hide ConstantBytes;
      for i := 20 to 64
        invariant forall m :: 20 <= m < i ==> block[m] == 0
      {
        block[i] := 0;
      }
      var b := ConstantBytes(c);
      for i := 0 to 20
        invariant forall m :: 0 <= m < i ==> block[m] == b[m]
        invariant forall m :: 20 <= m < 64 ==> block[m] == 0
      {
        block[i] := b[i];
      }
    }

    /** One HKDF step: HMAC under `secret` of the first `n` bytes of a constant, left in `tmp`. */
    method ExpandWith(c: Constant, n: nat)
      requires Valid() && n <= 20 && ConstantBytes(c)[n..] == Zeros(20 - n)
      modifies sha.h, sha.w, sha.tv, tmp, secret
      ensures secret[..] == old(secret[..])
      ensures tmp[..] == Hmac(old(secret[..]), ConstantBytes(c)[..n]) + Zeros(32)
    {
      hide ConstantBytes, Hmac;
      LoadConst(tmp, c);
      assert forall m :: n <= m < 20 ==> ConstantBytes(c)[m] == ConstantBytes(c)[n..][m - n];
      assert tmp[..n] == ConstantBytes(c)[..n];
      sha.HmacIn(secret, tmp, n);
    }

    method SecretFromTmp()
      requires Valid()
      modifies secret
      ensures secret[..] == tmp[..]
    {
      for i := 0 to 64
        invariant secret[..i] == tmp[..i]
      {
        secret[i] := tmp[i];
      }
    }

    method TakeKey(key: array<byte>, n: nat)
      requires Valid() && key.Length == 16 && n <= 16 && key != tmp
      modifies key
      ensures key[..] == tmp[..n] + old(key[n..])
    {
      for i := 0 to n
        invariant forall m :: 0 <= m < 16 ==> key[m] == if m < i then tmp[m] else old(key[m])
      {
        key[i] := tmp[i];
      }
    }

    /** expand_client_keys_from_dcid: three expansions reuse the one secret. */
    method ExpandClientKeys(dcid: array<byte>, dcidLen: nat)
      requires Valid() && dcid.Length == 20 && dcidLen <= 20 && (forall m :: dcidLen <= m < 20 ==> dcid[m] == 0)
      requires dcid != tmp && dcid != secret && dcid != quicKey && dcid != quicIv && dcid != quicHp && dcid != sni
      requires dcid != aes.roundKey
      modifies Shared(), quicKey, quicIv, quicHp
      ensures dcid[..] == old(dcid[..])
      ensures quicKey[..] == ClientKey(dcid[..dcidLen]) && quicHp[..] == ClientHp(dcid[..dcidLen])
      ensures quicIv[..] == ClientIv(dcid[..dcidLen]) + Zeros(4)
    {
      hide ConstantBytes, Hmac, ClientSecret, HkdfLabel;
      ghost var id := dcid[..dcidLen];
      ExtractSecret(dcid, dcidLen);
      ghost var client := ClientSecret(id);
      QuicHpIsLabel();
      DeriveKey(quicHp, QuicHp, 18, 16);
      QuicKeyIsLabel();
      DeriveKey(quicKey, QuicKey, 19, 16);
      QuicIvIsLabel();
      DeriveKey(quicIv, QuicIv, 18, 12);
      quicIv[12], quicIv[13], quicIv[14], quicIv[15] := 0, 0, 0, 0;
    }

    /** One derived key: the first `len` bytes of an expansion. */
    method DeriveKey(key: array<byte>, c: Constant, n: nat, len: nat)
      requires Valid() && n <= 20 && ConstantBytes(c)[n..] == Zeros(20 - n) && len <= 16
      requires key.Length == 16 && key != tmp && key != secret
      modifies sha.h, sha.w, sha.tv, tmp, secret, key
      ensures secret[..] == old(secret[..])
      ensures key[..] == Hmac(old(secret[..]), ConstantBytes(c)[..n])[..len] + old(key[len..])
    {
      hide ConstantBytes, Hmac;
      ExpandWith(c, n);
      TakeKey(key, len);
    }

    /** The client's initial secret, zero-padded, in `secret`. */
    method ExtractSecret(dcid: array<byte>, dcidLen: nat)
      requires Valid() && dcid.Length == 20 && dcidLen <= 20 && (forall m :: dcidLen <= m < 20 ==> dcid[m] == 0)
      requires dcid != tmp && dcid != secret
      modifies sha.h, sha.w, sha.tv, tmp, secret
      ensures secret[..] == Padded(ClientSecret(dcid[..dcidLen]))
    {
      hide ConstantBytes, Hmac, HkdfLabel;
      Clear(tmp);
      for i := 0 to 20
        invariant forall m :: 0 <= m < 64 ==> tmp[m] == if m < i then dcid[m] else 0
      {
        tmp[i] := dcid[i];
      }
      LoadConst(secret, InitialSalt);
      SaltIs();
      assert tmp[..dcidLen] == dcid[..dcidLen];
      sha.HmacIn(secret, tmp, dcidLen);
      SecretFromTmp();
      ClientInIsLabel();
      ExpandWith(ClientIn, 20);
      SecretFromTmp();
    }
  }

  lemma SaltIs()
    ensures ConstantBytes(InitialSalt) == INITIAL_SALT
  {
  }
}
