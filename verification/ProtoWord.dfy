/** The word that travels with every packet: two bits of protocol, fourteen of endpoint, sixteen of tag. */
module ProtoWord {

  function MakeProto(proto: bv32, rgid: bv32, meta: bv32): bv32 {
    proto | (rgid << 2) | (meta << 16)
  }

  function GetProto(word: bv32): bv32 {
    word & 0x3
  }

  function GetRgid(word: bv32): bv32 {
    (word >> 2) & 0x3fff
  }

  function GetMeta(word: bv32): bv32 {
    (word >> 16) & 0xffff
  }

  /** Protocol and endpoint come back as they went in. */
  lemma RoundTrip(proto: bv32, rgid: bv32, meta: bv32)
    requires proto < 4 && rgid < 0x4000
    ensures GetProto(MakeProto(proto, rgid, meta)) == proto
    ensures GetRgid(MakeProto(proto, rgid, meta)) == rgid
  {
  }

  /** The tag comes back exactly if it fits sixteen bits. */
  lemma TagRoundTrip(proto: bv32, rgid: bv32, meta: bv32)
    requires proto < 4 && rgid < 0x4000
    ensures GetMeta(MakeProto(proto, rgid, meta)) == meta <==> meta < 0x10000
  {
  }
}
