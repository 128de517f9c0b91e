/** Types/Channel/Channel.swift, `ChannelType`: the kinds of channel, an `Int` raw-valued enum. */
module ChannelTypes {
  import opened Wrappers

  datatype ChannelType = Text | Dm | Voice | GroupDm | Category | News | Store

  function ChannelTypeRaw(t: ChannelType): (r: nat)
    ensures r <= 6
  {
    match t
    case Text => 0
    case Dm => 1
    case Voice => 2
    case GroupDm => 3
    case Category => 4
    case News => 5
    case Store => 6
  }

  /** `ChannelType(rawValue:)`. */
  function ChannelTypeFromRaw(n: int): (r: Option<ChannelType>)
    ensures r.Some? ==> ChannelTypeRaw(r.value) == n
    ensures r.None? <==> (n < 0 || n > 6)
  {
    if n == 0 then Some(Text)
    else if n == 1 then Some(Dm)
    else if n == 2 then Some(Voice)
    else if n == 3 then Some(GroupDm)
    else if n == 4 then Some(Category)
    else if n == 5 then Some(News)
    else if n == 6 then Some(Store)
    else None
  }

  /** Every channel type is read back from its raw value, so the raw values are distinct. */
  lemma {:induction false} ChannelTypeRoundTrip(t: ChannelType)
    ensures ChannelTypeFromRaw(ChannelTypeRaw(t)) == Some(t)
    ensures forall other: ChannelType :: ChannelTypeRaw(other) == ChannelTypeRaw(t) ==> other == t
  {
    forall other: ChannelType | ChannelTypeRaw(other) == ChannelTypeRaw(t)
      ensures other == t
    {
      assert ChannelTypeFromRaw(ChannelTypeRaw(other)) == Some(other);
    }
  }

  /** `isGuild`: text, voice and category channels belong to a guild. */
  predicate IsGuildType(t: ChannelType) {
    t in {Text, Voice, Category}
  }

  /** `isDm`: direct and group direct messages. */
  predicate IsDmType(t: ChannelType) {
    t in {Dm, GroupDm}
  }

  /** `isVoice`: a voice channel or any direct message. */
  predicate IsVoiceType(t: ChannelType) {
    t == Voice || IsDmType(t)
  }

  /**
   * The classification splits the types: no type is both a guild and a
   * direct-message type, and exactly news and store are neither.
   */
  lemma Classification(t: ChannelType)
    ensures !(IsGuildType(t) && IsDmType(t))
    ensures !IsGuildType(t) && !IsDmType(t) <==> t == News || t == Store
    ensures IsVoiceType(t) <==> t in {Voice, Dm, GroupDm}
  {
  }
}
