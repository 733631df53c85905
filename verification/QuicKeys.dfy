/** The keys that protect a client's Initial packets, derived as RFC 9001 says and as the program does. */
module QuicKeys {
  import opened Aes
  import opened Sha256

  // ---- section 2 of RFC 5869, section 7.1 of RFC 8446 ----

  function Padded(b: seq<byte>): Chunk
    requires |b| <= 64
  {
    b + Zeros(64 - |b|)
  }

  function HkdfExtract(salt: seq<byte>, ikm: seq<byte>): (prk: seq<byte>)
    requires |salt| <= 64
    ensures |prk| == 32
  {
    Hmac(Padded(salt), ikm)
  }

  /** HKDF-Expand to at most one hash length. */
  function HkdfExpand(prk: seq<byte>, info: seq<byte>, len: nat): seq<byte>
    requires |prk| <= 64 && len <= 32
  {
    Hmac(Padded(prk), info + [0x01])[..len]
  }

  /** The ASCII codes of the characters that the labels are made of. */
  function AsciiCode(c: char): byte {
    match c
    case ' ' => 0x20 case '1' => 0x31 case '3' => 0x33 case 'c' => 0x63 case 'e' => 0x65 case 'h' => 0x68
    case 'i' => 0x69 case 'k' => 0x6b case 'l' => 0x6c case 'n' => 0x6e case 'p' => 0x70 case 'q' => 0x71
    case 's' => 0x73 case 't' => 0x74 case 'u' => 0x75 case 'v' => 0x76 case 'y' => 0x79
    case _ => 0
  }

  function Ascii(s: string): seq<byte> {
    seq(|s|, i requires 0 <= i < |s| => AsciiCode(s[i]))
  }

  /** The HkdfLabel structure with an empty context. */
  function HkdfLabel(lbl: string, len: nat): seq<byte>
    requires len < 256 && |lbl| < 240
  {
    [0, len as byte] + [(6 + |lbl|) as byte] + Ascii("tls13 ") + Ascii(lbl) + [0]
  }

  function HkdfExpandLabel(secret: seq<byte>, lbl: string, len: nat): seq<byte>
    requires |secret| <= 64 && len <= 32 && |lbl| < 240
  {
    HkdfExpand(secret, HkdfLabel(lbl, len), len)
  }

  // ---- sections 5.1 and 5.2 of RFC 9001 ----

  const INITIAL_SALT: seq<byte> := [0x38, 0x76, 0x2c, 0xf7, 0xf5, 0x59, 0x34, 0xb3, 0x4d, 0x17,
    0x9a, 0xe6, 0xa4, 0xc8, 0x0c, 0xad, 0xcc, 0xbb, 0x7f, 0x0a]

  function ClientSecret(dcid: seq<byte>): (s: seq<byte>)
    ensures |s| == 32
  {
    HkdfExpandLabel(HkdfExtract(INITIAL_SALT, dcid), "client in", 32)
  }

  function ClientKey(dcid: seq<byte>): (k: seq<byte>)
    ensures |k| == 16
  {
    HkdfExpandLabel(ClientSecret(dcid), "quic key", 16)
  }

  function ClientIv(dcid: seq<byte>): (k: seq<byte>)
    ensures |k| == 12
  {
    HkdfExpandLabel(ClientSecret(dcid), "quic iv", 12)
  }

  function ClientHp(dcid: seq<byte>): (k: seq<byte>)
    ensures |k| == 16
  {
    HkdfExpandLabel(ClientSecret(dcid), "quic hp", 16)
  }

  // ---- the program ----

  datatype Constant = InitialSalt | ClientIn | QuicKey | QuicIv | QuicHp

  /** The byte strings that load_const knows, and how many bytes of them are used. */
  function ConstantBytes(c: Constant): (b: seq<byte>)
    ensures |b| == 20
  {
    match c
    case InitialSalt => INITIAL_SALT
    case ClientIn =>
      [0x00, 0x20, 0x0f, 0x74, 0x6c, 0x73, 0x31, 0x33, 0x20, 0x63, 0x6c, 0x69, 0x65, 0x6e, 0x74, 0x20, 0x69, 0x6e,
        0x00, 0x01]
    case QuicKey =>
      [0x00, 0x10, 0x0e, 0x74, 0x6c, 0x73, 0x31, 0x33, 0x20, 0x71, 0x75, 0x69, 0x63, 0x20, 0x6b, 0x65, 0x79, 0x00,
        0x01, 0x00]
    case QuicIv =>
      [0x00, 0x0c, 0x0d, 0x74, 0x6c, 0x73, 0x31, 0x33, 0x20, 0x71, 0x75, 0x69, 0x63, 0x20, 0x69, 0x76, 0x00, 0x01,
        0x00, 0x00]
    case QuicHp =>
      [0x00, 0x10, 0x0d, 0x74, 0x6c, 0x73, 0x31, 0x33, 0x20, 0x71, 0x75, 0x69, 0x63, 0x20, 0x68, 0x70, 0x00, 0x01,
        0x00, 0x00]
  }

  lemma Tls13Text()
    ensures Ascii("tls13 ") == [0x74, 0x6c, 0x73, 0x31, 0x33, 0x20]
  {
  }

  lemma ClientInText()
    ensures Ascii("client in") == [0x63, 0x6c, 0x69, 0x65, 0x6e, 0x74, 0x20, 0x69, 0x6e]
  {
  }

  lemma QuicKeyText()
    ensures Ascii("quic key") == [0x71, 0x75, 0x69, 0x63, 0x20, 0x6b, 0x65, 0x79]
  {
  }

  lemma QuicIvText()
    ensures Ascii("quic iv") == [0x71, 0x75, 0x69, 0x63, 0x20, 0x69, 0x76]
  {
  }

  lemma QuicHpText()
    ensures Ascii("quic hp") == [0x71, 0x75, 0x69, 0x63, 0x20, 0x68, 0x70]
  {
  }

  lemma ClientInIsLabel()
    ensures ConstantBytes(ClientIn)[..20] == HkdfLabel("client in", 32) + [0x01]
    ensures ConstantBytes(ClientIn)[20..] == Zeros(0)
  {
    hide Ascii;
    Tls13Text();
    ClientInText();
  }

  lemma QuicKeyIsLabel()
    ensures ConstantBytes(QuicKey)[..19] == HkdfLabel("quic key", 16) + [0x01]
    ensures ConstantBytes(QuicKey)[19..] == Zeros(1)
  {
    hide Ascii;
    Tls13Text();
    QuicKeyText();
  }

  lemma QuicIvIsLabel()
    ensures ConstantBytes(QuicIv)[..18] == HkdfLabel("quic iv", 12) + [0x01] && ConstantBytes(QuicIv)[18..] == Zeros(2)
  {
    hide Ascii;
    Tls13Text();
    QuicIvText();
  }

  lemma QuicHpIsLabel()
    ensures ConstantBytes(QuicHp)[..18] == HkdfLabel("quic hp", 16) + [0x01] && ConstantBytes(QuicHp)[18..] == Zeros(2)
  {
    hide Ascii;
    Tls13Text();
    QuicHpText();
  }
}
