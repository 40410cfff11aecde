/**
 * Device identification shared by the three drivers: the accelerator-type
 * check on the name register, and the decoding of the version word and
 * the accelerator-type word into NUL-terminated character strings.
 */
module Ident {
  import opened Bits

  /** Accelerator-type codes held in the low 30 bits of the name register. */
  const CONV_ACC_TYPE: nat := 0x35AAB5C2
  const POOL_ACC_TYPE: nat := 0x35A5B9CF
  const ELM_WISE_PROC_ACC_TYPE: nat := 0x35AB3164

  /** The identity the drivers record: version string, type string and id. */
  datatype DeviceIdent = DeviceIdent(version: seq<char>, accType: seq<char>, accId: bv8)

  /** `(word & 0x3FFFFFFF) == code`: the low 30 bits of the name register carry the type code. */
  predicate IsDevice(nameWord: bv32, code: nat)
  {
    nameWord as int % 0x4000_0000 == code
  }

  /** The i-th 4-bit digit of a word, counting from the least significant. */
  function Nibble(word: bv32, i: nat): nat
  {
    (word as int / Pow(16, i)) % 16
  }

  /** The i-th 5-bit letter code of a word, counting from the least significant. */
  function Letter(word: bv32, i: nat): nat
  {
    (word as int / Pow(32, i)) % 32
  }

  /** Letter code 26 terminates the name; every other code c stands for 'a' + c. */
  function TypeChar(code: nat): char
    requires code < 32
  {
    if code == 26 then '\0' else ('a' as int + code) as char
  }

  /** Eight characters, each '0' plus one nibble, least significant first, then NUL. */
  ghost predicate VersionDecodes(v: seq<char>, word: bv32)
  {
    |v| == 9 && v[8] == '\0' &&
    forall i :: 0 <= i < 8 ==> v[i] == ('0' as int + Nibble(word, i)) as char
  }

  /** Six characters, one per 5-bit letter code, least significant first, then NUL. */
  ghost predicate TypeDecodes(t: seq<char>, word: bv32)
  {
    |t| == 7 && t[6] == '\0' &&
    forall i :: 0 <= i < 6 ==> t[i] == TypeChar(Letter(word, i))
  }

  ghost predicate IdentDecodes(id: DeviceIdent, versionWord: bv32, nameWord: bv32)
  {
    VersionDecodes(id.version, versionWord) && TypeDecodes(id.accType, nameWord) && id.accId == 0
  }

  /** The version loop: take the low nibble, shift the word right by 4, eight times. */
  method DecodeVersion(word: bv32) returns (v: seq<char>)
    ensures VersionDecodes(v, word)
  {
    var enc: nat := word as int;
    v := [];
    var i := 0;
    while i < 8
      invariant 0 <= i <= 8 && |v| == i
      invariant enc == word as int / Pow(16, i)
      invariant forall k :: 0 <= k < i ==> v[k] == ('0' as int + Nibble(word, k)) as char
    {
      DivDiv(word as int, Pow(16, i), 16);
      v := v + [('0' as int + enc % 16) as char];
      enc := enc / 16;
      i := i + 1;
    }
    v := v + ['\0'];
  }

  /**
   * The type loop: take the low 5 bits, shift right by 5, six times; the
   * id is then read from bits 31..30 of the already shifted word, which
   * holds at most two significant bits, so the recorded id is always 0.
   */
  method DecodeAccType(word: bv32) returns (t: seq<char>, id: bv8)
    ensures TypeDecodes(t, word)
    ensures id == 0
  {
    var enc: nat := word as int;
    t := [];
    var i := 0;
    while i < 6
      invariant 0 <= i <= 6 && |t| == i
      invariant enc == word as int / Pow(32, i)
      invariant forall k :: 0 <= k < i ==> t[k] == TypeChar(Letter(word, k))
    {
      DivDiv(word as int, Pow(32, i), 32);
      t := t + [TypeChar(enc % 32)];
      enc := enc / 32;
      i := i + 1;
    }
    t := t + ['\0'];
    AccIdVanishes(word, enc);
    id := W8(enc / 0x4000_0000) as bv8;
  }

  method DecodeIdent(versionWord: bv32, nameWord: bv32) returns (id: DeviceIdent)
    ensures IdentDecodes(id, versionWord, nameWord)
  {
    var v := DecodeVersion(versionWord);
    var t, n := DecodeAccType(nameWord);
    id := DeviceIdent(v, t, n);
  }

  /** The name a device reports is spelled by the low 30 bits of its name register. */
  lemma NameFromLow30(nameWord: bv32, code: nat, t: seq<char>)
    requires code < 0x4000_0000 && IsDevice(nameWord, code) && TypeDecodes(t, nameWord)
    ensures t == Spelling(code)
  {
    LettersOfLow30(nameWord, code);
  }

  /** The characters a type code spells. */
  function Spelling(code: nat): seq<char>
  {
    [TypeChar(code % 32), TypeChar((code / 0x20) % 32), TypeChar((code / 0x400) % 32),
     TypeChar((code / 0x8000) % 32), TypeChar((code / 0x10_0000) % 32),
     TypeChar((code / 0x200_0000) % 32), '\0']
  }

  /** The convolution type code spells "conv". */
  lemma ConvCodeSpellsConv()
    ensures Spelling(CONV_ACC_TYPE) == ['c', 'o', 'n', 'v', '\0', '\0', '\0']
  {
    assert CONV_ACC_TYPE % 32 == 2;
    assert CONV_ACC_TYPE / 0x20 == 0x1AD55AE && 0x1AD55AE % 32 == 14;
    assert CONV_ACC_TYPE / 0x400 == 0xD6AAD && 0xD6AAD % 32 == 13;
    assert CONV_ACC_TYPE / 0x8000 == 0x6B55 && 0x6B55 % 32 == 21;
    assert CONV_ACC_TYPE / 0x10_0000 == 0x35A && 0x35A % 32 == 26;
    assert CONV_ACC_TYPE / 0x200_0000 == 0x1A && 0x1A % 32 == 26;
  }

  /** The pooling type code spells "pool". */
  lemma PoolCodeSpellsPool()
    ensures Spelling(POOL_ACC_TYPE) == ['p', 'o', 'o', 'l', '\0', '\0', '\0']
  {
    assert POOL_ACC_TYPE % 32 == 15;
    assert POOL_ACC_TYPE / 0x20 == 0x1AD2DCE && 0x1AD2DCE % 32 == 14;
    assert POOL_ACC_TYPE / 0x400 == 0xD696E && 0xD696E % 32 == 14;
    assert POOL_ACC_TYPE / 0x8000 == 0x6B4B && 0x6B4B % 32 == 11;
    assert POOL_ACC_TYPE / 0x10_0000 == 0x35A && 0x35A % 32 == 26;
    assert POOL_ACC_TYPE / 0x200_0000 == 0x1A && 0x1A % 32 == 26;
  }

  /** The element-wise type code spells "elmw". */
  lemma ElmWiseCodeSpellsElmw()
    ensures Spelling(ELM_WISE_PROC_ACC_TYPE) == ['e', 'l', 'm', 'w', '\0', '\0', '\0']
  {
    assert ELM_WISE_PROC_ACC_TYPE % 32 == 4;
    assert ELM_WISE_PROC_ACC_TYPE / 0x20 == 0x1AD598B && 0x1AD598B % 32 == 11;
    assert ELM_WISE_PROC_ACC_TYPE / 0x400 == 0xD6ACC && 0xD6ACC % 32 == 12;
    assert ELM_WISE_PROC_ACC_TYPE / 0x8000 == 0x6B56 && 0x6B56 % 32 == 22;
    assert ELM_WISE_PROC_ACC_TYPE / 0x10_0000 == 0x35A && 0x35A % 32 == 26;
    assert ELM_WISE_PROC_ACC_TYPE / 0x200_0000 == 0x1A && 0x1A % 32 == 26;
  }

  /** A device that passes the convolution type check calls itself "conv". */
  lemma ConvDeviceIsNamedConv(nameWord: bv32, t: seq<char>)
    requires IsDevice(nameWord, CONV_ACC_TYPE) && TypeDecodes(t, nameWord)
    ensures t == ['c', 'o', 'n', 'v', '\0', '\0', '\0']
  {
    NameFromLow30(nameWord, CONV_ACC_TYPE, t);
    ConvCodeSpellsConv();
  }

  /** A device that passes the pooling type check calls itself "pool". */
  lemma PoolDeviceIsNamedPool(nameWord: bv32, t: seq<char>)
    requires IsDevice(nameWord, POOL_ACC_TYPE) && TypeDecodes(t, nameWord)
    ensures t == ['p', 'o', 'o', 'l', '\0', '\0', '\0']
  {
    NameFromLow30(nameWord, POOL_ACC_TYPE, t);
    PoolCodeSpellsPool();
  }

  /** A device that passes the element-wise type check calls itself "elmw". */
  lemma ElmWiseDeviceIsNamedElmw(nameWord: bv32, t: seq<char>)
    requires IsDevice(nameWord, ELM_WISE_PROC_ACC_TYPE) && TypeDecodes(t, nameWord)
    ensures t == ['e', 'l', 'm', 'w', '\0', '\0', '\0']
  {
    NameFromLow30(nameWord, ELM_WISE_PROC_ACC_TYPE, t);
    ElmWiseCodeSpellsElmw();
  }

  lemma Pow32Values()
    ensures Pow(32, 0) == 1 && Pow(32, 1) == 0x20 && Pow(32, 2) == 0x400 && Pow(32, 3) == 0x8000
    ensures Pow(32, 4) == 0x10_0000 && Pow(32, 5) == 0x200_0000 && Pow(32, 6) == 0x4000_0000
  {
    calc {
      Pow(32, 6);
      32 * Pow(32, 5);
      32 * (32 * Pow(32, 4));
      32 * (32 * (32 * Pow(32, 3)));
      32 * (32 * (32 * (32 * Pow(32, 2))));
      32 * (32 * (32 * (32 * (32 * Pow(32, 1)))));
    }
  }

  /** After six 5-bit shifts at most two significant bits remain, so a further shift by 30 leaves 0. */
  lemma AccIdVanishes(word: bv32, enc: nat)
    requires enc == word as int / Pow(32, 6)
    ensures W8(enc / 0x4000_0000) == 0
  {
    Pow32Values();
    assert word as int < 0x1_0000_0000;
    assert enc < 4;
  }

  /** Bits above a multiple of 32 * p do not reach letter (x / p) % 32. */
  lemma {:induction false} LetterIgnoresHighBits(x: nat, hi: nat, code: nat, p: nat, rest: nat)
    requires p > 0 && rest > 0 && rest % 32 == 0 && x == hi * (p * rest) + code
    ensures (x / p) % 32 == (code / p) % 32
  {
    DivUnique(code, p, code / p, code % p);
    assert x == (hi * rest + code / p) * p + code % p;
    DivUnique(x, p, hi * rest + code / p, code % p);
    var r2 := rest / 32;
    assert rest == r2 * 32;
    assert hi * rest + code / p == (hi * r2 + (code / p) / 32) * 32 + (code / p) % 32;
    DivUnique(hi * rest + code / p, 32, hi * r2 + (code / p) / 32, (code / p) % 32);
  }

  /** The six letters of a name word are those of its low 30 bits. */
  lemma LettersOfLow30(nameWord: bv32, code: nat)
    requires code < 0x4000_0000 && IsDevice(nameWord, code)
    ensures Letter(nameWord, 0) == code % 32
    ensures Letter(nameWord, 1) == (code / 0x20) % 32
    ensures Letter(nameWord, 2) == (code / 0x400) % 32
    ensures Letter(nameWord, 3) == (code / 0x8000) % 32
    ensures Letter(nameWord, 4) == (code / 0x10_0000) % 32
    ensures Letter(nameWord, 5) == (code / 0x200_0000) % 32
  {
    var x := nameWord as int;
    var hi := x / 0x4000_0000;
    assert x == hi * 0x4000_0000 + code;
    Pow32Values();
    LetterIgnoresHighBits(x, hi, code, 1, 0x4000_0000);
    LetterIgnoresHighBits(x, hi, code, 0x20, 0x200_0000);
    LetterIgnoresHighBits(x, hi, code, 0x400, 0x10_0000);
    LetterIgnoresHighBits(x, hi, code, 0x8000, 0x8000);
    LetterIgnoresHighBits(x, hi, code, 0x10_0000, 0x400);
    LetterIgnoresHighBits(x, hi, code, 0x200_0000, 0x20);
  }
}
