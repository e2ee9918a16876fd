/** The static configuration the core reads: which bands are downloaded for each collection. */
module Config {
  const SentinelCollection := "hls2-s30"
  const LandsatCollection := "hls2-l30"

  /** The collections searched, in order. */
  const Collections: seq<string> := [SentinelCollection, LandsatCollection]

  /** The bands requested per collection, in download order. */
  const Bands: map<string, seq<string>> := map[
    SentinelCollection := ["B02", "B03", "B04", "B8A", "B11", "B12", "thumbnail"],
    LandsatCollection := ["B02", "B03", "B04", "B05", "B06", "B07", "thumbnail"]
  ]
}
