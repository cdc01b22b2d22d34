/** The vocabulary shared by the configuration and the data loader: which input
    modalities exist, which raster sources each one reads, in which order they are
    stacked, and how many channels each source contributes. */
module Modalities {
  import opened Wrappers

  /** The five input configurations a model can be trained on. */
  datatype Modality = SatelliteOnly | BcOnly | BhOnly | BcPlusSat | AllSources

  /** The raster sources a tile can be built from: RGB satellite imagery,
      building count and building height. */
  datatype Source = Satellite | BuildingCount | BuildingHeight

  /** The string by which callers select a modality. */
  function Name(m: Modality): string {
    match m
    case SatelliteOnly => "satellite"
    case BcOnly => "bc"
    case BhOnly => "bh"
    case BcPlusSat => "bc+sat"
    case AllSources => "all"
  }

  const AcceptedNames: set<string> := {"satellite", "bc", "bh", "bc+sat", "all"}

  /** Recognises a modality string; the inverse of `Name`. */
  function Parse(s: string): (r: Option<Modality>)
    ensures r.Some? <==> s in AcceptedNames
    ensures r.Some? ==> Name(r.value) == s
    ensures r.None? ==> forall m :: Name(m) != s
  {
    if s == "satellite" then Some(SatelliteOnly)
    else if s == "bc" then Some(BcOnly)
    else if s == "bh" then Some(BhOnly)
    else if s == "bc+sat" then Some(BcPlusSat)
    else if s == "all" then Some(AllSources)
    else None
  }

  lemma ParseName(m: Modality)
    ensures Parse(Name(m)) == Some(m)
  {
  }

  /** Position of a source in the fixed stacking order satellite, bc, bh. */
  function Rank(src: Source): nat {
    match src
    case Satellite => 0
    case BuildingCount => 1
    case BuildingHeight => 2
  }

  /** The sources a modality reads, in the order their channels are stacked. */
  function SourcesOf(m: Modality): (srcs: seq<Source>)
    ensures |srcs| >= 1
    ensures forall i, j :: 0 <= i < j < |srcs| ==> Rank(srcs[i]) < Rank(srcs[j])
    ensures Satellite in srcs <==> m in {SatelliteOnly, BcPlusSat, AllSources}
    ensures BuildingCount in srcs <==> m in {BcOnly, BcPlusSat, AllSources}
    ensures BuildingHeight in srcs <==> m in {BhOnly, AllSources}
  {
    match m
    case SatelliteOnly => [Satellite]
    case BcOnly => [BuildingCount]
    case BhOnly => [BuildingHeight]
    case BcPlusSat => [Satellite, BuildingCount]
    case AllSources => [Satellite, BuildingCount, BuildingHeight]
  }

  /** Directory under the data root that holds a source's tiles. */
  function Folder(src: Source): string {
    match src
    case Satellite => "satellite-256"
    case BuildingCount => "bc-256"
    case BuildingHeight => "bh-256"
  }

  /** Key under which a source's visualisation is returned. */
  function VizKey(src: Source): string {
    match src
    case Satellite => "satellite"
    case BuildingCount => "bc"
    case BuildingHeight => "bh"
  }

  /** Channels a source is expected to contribute: three RGB bands for the
      satellite image, a single band for each of the other two. */
  function ExpectedChannels(src: Source): nat {
    match src
    case Satellite => 3
    case BuildingCount => 1
    case BuildingHeight => 1
  }

  /** Total channels of a sequence of sources stacked along the last axis. */
  function ChannelCount(srcs: seq<Source>): nat {
    if |srcs| == 0 then 0 else ExpectedChannels(srcs[0]) + ChannelCount(srcs[1..])
  }

  lemma {:induction false} ChannelCountAppend(a: seq<Source>, b: seq<Source>)
    ensures ChannelCount(a + b) == ChannelCount(a) + ChannelCount(b)
    decreases |a|
  {
    if |a| == 0 {
      assert a + b == b;
    } else {
      assert (a + b)[1..] == a[1..] + b;
      ChannelCountAppend(a[1..], b);
    }
  }

  /** The channel count of each modality: 3, 1, 1, 4 and 5. */
  lemma ChannelsPerModality()
    ensures ChannelCount(SourcesOf(SatelliteOnly)) == 3
    ensures ChannelCount(SourcesOf(BcOnly)) == 1
    ensures ChannelCount(SourcesOf(BhOnly)) == 1
    ensures ChannelCount(SourcesOf(BcPlusSat)) == 4
    ensures ChannelCount(SourcesOf(AllSources)) == 5
  {
    ChannelCountAppend([Satellite], [BuildingCount]);
    ChannelCountAppend([Satellite, BuildingCount], [BuildingHeight]);
    assert [Satellite, BuildingCount] + [BuildingHeight] == [Satellite, BuildingCount, BuildingHeight];
  }
}
