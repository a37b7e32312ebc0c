/**
 * Records the pages hand to each other and to the user: the analysis result
 * kept in session storage between the upload page and the results page, and
 * the toast notifications the handlers raise.
 */
module AppState {
  import opened Wrappers

  /**
   * The stored analysis result. The level is kept as the string read back
   * from storage; the derived images are optional fields.
   */
  datatype AnalysisResult = AnalysisResult(
    riskLevel: string,
    confidence: int,
    image: string,
    grayscaleImage: Option<string>,
    heatmapImage: Option<string>,
    gradCAMImage: Option<string>)

  /** A toast notification; `destructive` is the error styling. */
  datatype Toast = Toast(title: string, description: string, destructive: bool)

  /** JavaScript truthiness of an optional string: present and not empty. */
  predicate Present(o: Option<string>) {
    o.Some? && o.value != ""
  }
}
