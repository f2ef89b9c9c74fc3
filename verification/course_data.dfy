/**
  The documents the courses endpoint reads and the response object it builds.
  Document stores are out of scope: each document appears here already fetched,
  with only the fields the handler reads.
 */
module CourseData {
  import opened Wrappers

  /** A `courses` document: `courseNum` and `courseName`. */
  datatype CourseDoc = CourseDoc(courseNum: string, courseName: string)

  /** A `reviews` document: its `comment` and its numeric `rating`. */
  datatype ReviewDoc = ReviewDoc(comment: string, rating: int)

  /** A `sections` document after its lecturer has been resolved: the lecturer's
      `lectName` and the reviews whose `sectionID` is this section, in query order. */
  datatype SectionDoc = SectionDoc(lectName: string, reviews: seq<ReviewDoc>)

  /** One entry of a section's `review` list in the response. */
  datatype ReviewObject = ReviewObject(comment: string, rating: int)

  /** One entry of the response's `sections` list. `ratingNumberPerSection` and
      `averageRating` are `None` while the handler has not assigned them. */
  datatype SectionObject = SectionObject(
    lecturerName: string,
    review: seq<ReviewObject>,
    ratingNumberPerSection: Option<nat>,
    averageRating: Option<real>)

  /** The response body. `averageRating` is `None` while it has not been assigned. */
  datatype CourseResponse = CourseResponse(
    courseNumber: string,
    name: string,
    sections: seq<SectionObject>,
    courseTotalReviews: nat,
    averageRating: Option<real>)
}
