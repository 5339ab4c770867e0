/** The fixed-layout Store records: decoders and the encoders that invert them. */
module FeedRecords {
  import opened Options

  type Byte = n: int | 0 <= n < 256 witness 0

  type Bytes = seq<Byte>

  // -- Big-endian integers ---------------------------------------------------------------------

  /** `int.from_bytes(raw, "big")`. */
  function FromBytes(raw: Bytes): nat {
    if raw == [] then 0 else FromBytes(raw[..|raw| - 1]) * 256 + raw[|raw| - 1]
  }

  function ToBytes(n: nat, width: nat): (r: Bytes)
    ensures |r| == width
  {
    if width == 0 then [] else ToBytes(n / 256, width - 1) + [n % 256]
  }

  function Limit(width: nat): nat {
    if width == 0 then 1 else Limit(width - 1) * 256
  }

  lemma {:induction false} BytesBackAndForth(raw: Bytes)
    ensures ToBytes(FromBytes(raw), |raw|) == raw
    ensures FromBytes(raw) < Limit(|raw|)
  {
    if raw != [] {
      BytesBackAndForth(raw[..|raw| - 1]);
      assert raw == raw[..|raw| - 1] + [raw[|raw| - 1]];
    }
  }

  lemma {:induction false} NumberBackAndForth(n: nat, width: nat)
    requires n < Limit(width)
    ensures FromBytes(ToBytes(n, width)) == n
  {
    if width > 0 {
      NumberBackAndForth(n / 256, width - 1);
      var r := ToBytes(n, width);
      assert r[..|r| - 1] == ToBytes(n / 256, width - 1);
    }
  }

  // -- Relations -------------------------------------------------------------------------------

  const RELATION_SIZE := 80
  const PROVENANCE_SIZE := 112
  const FEED_SIZE := 56

  datatype Relation = Relation(kind: int, source: Bytes, target: Bytes, generation: nat, provenance: Bytes,
                               ordinal: nat, raw: Bytes)

  datatype Identity = Identity(kind: int, source: Bytes, target: Bytes, ordinal: nat)

  function IdentityOf(r: Relation): Identity {
    Identity(r.kind, r.source, r.target, r.ordinal)
  }

  const RELATION_MAGIC: Bytes := [77, 82, 1, 0]    // "MR" version 1
  const PROVENANCE_MAGIC: Bytes := [77, 80, 1, 0]  // "MP" version 1
  const FEED_MAGIC: Bytes := [77, 67, 1, 0]        // "MC" version 1

  function DecodeRelation(raw: Bytes): Option<Relation> {
    if |raw| != RELATION_SIZE || raw[..4] != RELATION_MAGIC || raw[5..8] != [0, 0, 0] ||
        raw[4] !in {1, 2, 3, 4} then None
    else Some(Relation(raw[4], raw[8..20], raw[20..32], FromBytes(raw[32..40]), raw[40..72],
        FromBytes(raw[72..80]), raw))
  }

  ghost predicate RelationFields(r: Relation) {
    && r.kind in {1, 2, 3, 4} && |r.source| == 12 && |r.target| == 12 && |r.provenance| == 32
    && r.generation < Limit(8) && r.ordinal < Limit(8)
  }

  function EncodeRelation(r: Relation): Bytes
    requires 0 <= r.kind < 256
  {
    RELATION_MAGIC + [r.kind, 0, 0, 0] + r.source + r.target + ToBytes(r.generation, 8) + r.provenance +
        ToBytes(r.ordinal, 8)
  }

  /** Decoding keeps every byte: the encoder gives the record back. */
  lemma RelationDecodes(raw: Bytes)
    ensures DecodeRelation(raw).Some? ==>
      RelationFields(DecodeRelation(raw).value) && EncodeRelation(DecodeRelation(raw).value) == raw
  {
    if DecodeRelation(raw).Some? {
      BytesBackAndForth(raw[32..40]);
      BytesBackAndForth(raw[72..80]);
      assert [raw[4], 0, 0, 0] == [raw[4]] + raw[5..8] == raw[4..8];
      RelationSlices(raw);
    }
  }

  lemma RelationSlices(raw: Bytes)
    requires |raw| == RELATION_SIZE
    ensures raw == raw[..4] + raw[4..8] + raw[8..20] + raw[20..32] + raw[32..40] + raw[40..72] + raw[72..80]
  {
  }

  /** Every record with in-range fields has an encoding, and it decodes to those fields. */
  lemma RelationEncodes(r: Relation)
    requires RelationFields(r)
    ensures DecodeRelation(EncodeRelation(r)) == Some(r.(raw := EncodeRelation(r)))
  {
    var raw := EncodeRelation(r);
    NumberBackAndForth(r.generation, 8);
    NumberBackAndForth(r.ordinal, 8);
    assert raw[..4] == RELATION_MAGIC && raw[5..8] == [0, 0, 0] && raw[4] == r.kind;
    assert raw[8..20] == r.source && raw[20..32] == r.target;
    assert raw[32..40] == ToBytes(r.generation, 8) && raw[40..72] == r.provenance &&
        raw[72..80] == ToBytes(r.ordinal, 8);
  }

  // -- Provenance ------------------------------------------------------------------------------

  datatype Provenance = Provenance(source: Bytes, producer: Bytes, transformation: Bytes, generation: nat,
                                   evidence: Bytes, ancestry: Bytes, raw: Bytes)

  function DecodeProvenance(raw: Bytes): Option<Provenance> {
    if |raw| != PROVENANCE_SIZE || raw[..4] != PROVENANCE_MAGIC then None
    else Some(Provenance(raw[4..16], raw[16..28], raw[28..40], FromBytes(raw[40..48]), raw[48..80], raw[80..112], raw))
  }

  ghost predicate ProvenanceFields(p: Provenance) {
    && |p.source| == 12 && |p.producer| == 12 && |p.transformation| == 12
    && |p.evidence| == 32 && |p.ancestry| == 32 && p.generation < Limit(8)
  }

  function EncodeProvenance(p: Provenance): Bytes {
    PROVENANCE_MAGIC + p.source + p.producer + p.transformation + ToBytes(p.generation, 8) + p.evidence + p.ancestry
  }

  lemma ProvenanceDecodes(raw: Bytes)
    ensures DecodeProvenance(raw).Some? ==>
      ProvenanceFields(DecodeProvenance(raw).value) && EncodeProvenance(DecodeProvenance(raw).value) == raw
  {
    if DecodeProvenance(raw).Some? {
      BytesBackAndForth(raw[40..48]);
      assert raw == raw[..4] + raw[4..16] + raw[16..28] + raw[28..40] + raw[40..48] + raw[48..80] + raw[80..112];
    }
  }

  lemma ProvenanceEncodes(p: Provenance)
    requires ProvenanceFields(p)
    ensures DecodeProvenance(EncodeProvenance(p)) == Some(p.(raw := EncodeProvenance(p)))
  {
    var raw := EncodeProvenance(p);
    NumberBackAndForth(p.generation, 8);
    assert raw[..4] == PROVENANCE_MAGIC && raw[4..16] == p.source && raw[16..28] == p.producer;
    assert raw[28..40] == p.transformation && raw[40..48] == ToBytes(p.generation, 8);
    assert raw[48..80] == p.evidence && raw[80..112] == p.ancestry;
  }

  // -- Commit feed -----------------------------------------------------------------------------

  datatype Feed = Feed(
    generation: nat, objectCount: nat, relationCount: nat, provenanceCount: nat, root: Bytes, raw: Bytes)

  function DecodeFeed(raw: Bytes): Option<Feed> {
    if |raw| != FEED_SIZE || raw[..4] != FEED_MAGIC then None
    else Some(Feed(FromBytes(raw[4..12]), FromBytes(raw[12..16]), FromBytes(raw[16..20]), FromBytes(raw[20..24]),
        raw[24..56], raw))
  }

  ghost predicate FeedFields(f: Feed) {
    && f.generation < Limit(8) && f.objectCount < Limit(4) && f.relationCount < Limit(4)
    && f.provenanceCount < Limit(4) && |f.root| == 32
  }

  function EncodeFeed(f: Feed): Bytes {
    FEED_MAGIC + ToBytes(f.generation, 8) + ToBytes(f.objectCount, 4) + ToBytes(f.relationCount, 4)
      + ToBytes(f.provenanceCount, 4) + f.root
  }

  lemma FeedDecodes(raw: Bytes)
    ensures DecodeFeed(raw).Some? ==> FeedFields(DecodeFeed(raw).value) && EncodeFeed(DecodeFeed(raw).value) == raw
  {
    if DecodeFeed(raw).Some? {
      BytesBackAndForth(raw[4..12]);
      BytesBackAndForth(raw[12..16]);
      BytesBackAndForth(raw[16..20]);
      BytesBackAndForth(raw[20..24]);
      assert raw == raw[..4] + raw[4..12] + raw[12..16] + raw[16..20] + raw[20..24] + raw[24..56];
    }
  }

  lemma FeedEncodes(f: Feed)
    requires FeedFields(f)
    ensures DecodeFeed(EncodeFeed(f)) == Some(f.(raw := EncodeFeed(f)))
  {
    var raw := EncodeFeed(f);
    NumberBackAndForth(f.generation, 8);
    NumberBackAndForth(f.objectCount, 4);
    NumberBackAndForth(f.relationCount, 4);
    NumberBackAndForth(f.provenanceCount, 4);
    assert raw[..4] == FEED_MAGIC && raw[4..12] == ToBytes(f.generation, 8) && raw[12..16] == ToBytes(f.objectCount, 4);
    assert raw[16..20] == ToBytes(f.relationCount, 4) && raw[20..24] == ToBytes(f.provenanceCount, 4) &&
        raw[24..56] == f.root;
  }
}
