/** Sizes and tables of the symbol versions (design/assets/qrcode.js). */
module QrTables {
  // ----- the tables for error-correction level M --------------------------------------------------

  const MAX_VERSION := 15
  const ECC_PER_BLOCK: seq<nat> := [0, 10, 16, 26, 18, 24, 16, 18, 22, 22, 26, 30, 22, 22, 24, 24]
  const BLOCK_COUNT: seq<nat> := [0, 1, 1, 1, 2, 2, 4, 4, 4, 5, 5, 5, 8, 9, 9, 10]

  type Version = v: int | 1 <= v <= 15 witness 1

  function RawCodewordBits(version: Version): int {
    var bits := (16 * version + 128) * version + 64;
    if version >= 2 then
      var align := version / 7 + 2;
      bits - ((25 * align - 10) * align - 55) - (if version >= 7 then 36 else 0)
    else bits
  }

  function RawLength(version: Version): int { RawCodewordBits(version) / 8 }

  function DataCodewords(version: Version): int {
    RawLength(version) - ECC_PER_BLOCK[version] * BLOCK_COUNT[version]
  }

  function CountBits(version: Version): nat { if version < 10 then 8 else 16 }

  /** The guard of the version search: the header and the bytes fit. */
  predicate Fits(bytes: nat, version: Version) {
    4 + CountBits(version) + bytes * 8 <= DataCodewords(version) * 8
  }

  // ----- the block layout ----------------------------------------------------------------------------

  /** `blocks` blocks, the first `shortBlocks` with `shortLength` data symbols, the others with one more. */
  datatype Layout = Layout(blocks: nat, shortBlocks: nat, shortLength: nat, ecc: nat) {
    ghost predicate Valid() {
      0 < blocks && shortBlocks <= blocks && 0 < ecc && 0 < shortLength && shortLength + 1 + ecc <= 255
    }

    function Length(b: nat): nat { shortLength + (if b < shortBlocks then 0 else 1) }

    /** Where block b starts in the data. */
    function Offset(b: nat): nat { b * shortLength + (if b < shortBlocks then 0 else b - shortBlocks) }

    function DataLength(): nat { Offset(blocks) }

    /** How many data symbols precede column c of block b when the blocks are read column by column. */
    function DataPlace(c: nat, b: nat): nat {
      if c < shortLength then c * blocks + b
      else shortLength * blocks + (if b < shortBlocks then 0 else b - shortBlocks)
    }

    function EccPlace(e: nat, b: nat): nat { DataLength() + e * blocks + b }
  }

  function LayoutOf(version: Version): Layout {
    TableFacts(version);
    var blocks := BLOCK_COUNT[version];
    var raw := RawLength(version);
    Layout(blocks, blocks - raw % blocks, raw / blocks - ECC_PER_BLOCK[version], ECC_PER_BLOCK[version])
  }

  /** The raw codewords of versions 1 to 15, evaluated. */
  const RAW_LENGTH: seq<nat> := [0, 26, 44, 70, 100, 134, 172, 196, 242, 292, 346, 404, 466, 532, 581, 655]

  lemma RawLengths(version: Version)
    ensures RawLength(version) == RAW_LENGTH[version]
  {
    if version < 7 {
      assert version / 7 == 0;
    } else if version < 14 {
      assert version / 7 == 1;
    } else {
      assert version / 7 == 2;
    }
  }

  lemma TableFacts(version: Version)
    ensures BLOCK_COUNT[version] > 0 && ECC_PER_BLOCK[version] > 0
    ensures 0 < RawLength(version) / BLOCK_COUNT[version] - ECC_PER_BLOCK[version]
    ensures RawLength(version) / BLOCK_COUNT[version] < 255
    ensures version < 10 ==> DataCodewords(version) < 256
    ensures DataCodewords(version) <= 415 && DataCodewords(15) == 415
  {
    hide RawLength;
    RawLengths(version);
    RawLengths(15);
  }

  lemma LayoutFacts(version: Version)
    ensures LayoutOf(version).Valid()
    ensures LayoutOf(version).DataLength() == DataCodewords(version)
    ensures LayoutOf(version).DataLength() + LayoutOf(version).ecc * LayoutOf(version).blocks == RawLength(version)
  {
    hide RawLength;
    TableFacts(version);
    LayoutArithmetic(RawLength(version), BLOCK_COUNT[version], ECC_PER_BLOCK[version]);
  }

  lemma LayoutArithmetic(raw: int, blocks: nat, ecc: nat)
    requires blocks > 0
    ensures blocks * (raw / blocks - ecc) + raw % blocks == raw - ecc * blocks
  {
    assert raw == blocks * (raw / blocks) + raw % blocks;
    assert blocks * (raw / blocks - ecc) == blocks * (raw / blocks) - ecc * blocks;
  }
}
