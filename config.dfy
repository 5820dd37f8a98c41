/** The scoring constants of config.py that the audit reads. */
module Config {
  /** `THRESHOLDS['title_length_optimal']`. */
  const TitleOptimalMin: int := 50
  const TitleOptimalMax: int := 60

  /** `THRESHOLDS['meta_desc_optimal']`. */
  const MetaDescOptimalMin: int := 150
  const MetaDescOptimalMax: int := 160

  /** `WEIGHTS`: the share of each category in the final score. */
  const TechnicalWeight: real := 0.20
  const OnpageWeight: real := 0.25
  const IndexingWeight: real := 0.20
  const ContentWeight: real := 0.20
  /** Configured, but no category of the audit is scored with it. */
  const AdvancedWeight: real := 0.15
}
