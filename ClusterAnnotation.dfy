/** The pin the main map shows for one geohash bucket when zoomed out. */
module ClusterAnnotations {
  import opened Wrappers
  import opened Foreign
  import opened SetAnnotations

  /** `ClusterAnnotation`: its initialiser stores the three fields as given. */
  datatype ClusterAnnotation = ClusterAnnotation(identifier: string, coordinate: Coordinate, count: int) {
    /** `"\(count)개"`, which reads back as the count. */
    function Title(): (t: string)
      ensures ParseCountTitle(t) == Some(count)
    {
      CountTitle(count)
    }
  }

  /** `ClusterSummary`: where a bucket sits, how many records it holds, and its key. */
  datatype ClusterSummary = ClusterSummary(coordinate: Coordinate, count: int, geohash: string)
}
