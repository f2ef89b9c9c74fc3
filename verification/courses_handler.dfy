/**
  The courses endpoint's rollup as the handler performs it: nested loops over
  sections and their reviews that push into the response, keep running totals
  and reassign the averages after every review.
 */
module CoursesHandler {
  import opened Wrappers
  import opened CourseData
  import opened RatingStats
  import opened CourseRollup

  /** Builds the response from the course query's documents (the first one is
      used, and there must be one) and the already resolved sections. The
      values left after the last review equal the one-shot folds of `Rollup`. */
  method Handler(courseDocs: seq<CourseDoc>, sections: seq<SectionDoc>) returns (returnValue: CourseResponse)
    requires |courseDocs| > 0
    ensures returnValue == Rollup(courseDocs[0], sections)
  {
    var courseData := courseDocs[0];
    returnValue := CourseResponse(courseData.courseNum, courseData.courseName, [], 0, None);
    var ratingTotal := 0;
    ghost var visited: seq<ReviewDoc> := [];

    var i := 0;
    while i < |sections|
      invariant 0 <= i <= |sections|
      invariant returnValue.courseNumber == courseData.courseNum && returnValue.name == courseData.courseName
      invariant returnValue.sections == SectionViews(sections[..i])
      invariant visited == AllReviews(sections[..i])
      invariant returnValue.courseTotalReviews == |visited|
      invariant ratingTotal == Sum(Ratings(visited))
      invariant returnValue.averageRating == Average(ratingTotal, returnValue.courseTotalReviews)
    {
      var review := sections[i].reviews;
      var sectionObject := SectionObject(sections[i].lectName, [], None, None);
      var sumRating := 0;
      ghost var totalBefore := ratingTotal;
      returnValue := returnValue.(courseTotalReviews := returnValue.courseTotalReviews + |review|);
      ghost var counted := returnValue;

      var j := 0;
      while j < |review|
        invariant 0 <= j <= |review|
        invariant sumRating == Sum(Ratings(review[..j]))
        invariant ratingTotal == totalBefore + sumRating
        invariant sectionObject.lecturerName == sections[i].lectName
        invariant sectionObject.review == ReviewObjects(review[..j])
        invariant sectionObject.ratingNumberPerSection == if j == 0 then None else Some(|review|)
        invariant sectionObject.averageRating == if j == 0 then None else Average(sumRating, |review|)
        invariant returnValue == counted.(averageRating :=
          if j == 0 then counted.averageRating else Average(ratingTotal, counted.courseTotalReviews))
      {
        var reviewData := review[j];
        sectionObject := sectionObject.(ratingNumberPerSection := Some(|review|));
        SumRatingsStep(review, j);
        sumRating := sumRating + reviewData.rating;
        sectionObject := sectionObject.(averageRating := Some((sumRating as real) / (|review| as real)));
        var reviewObject := ReviewObject(reviewData.comment, reviewData.rating);
        assert ReviewObjects(review[..j + 1]) == ReviewObjects(review[..j]) + [reviewObject];
        sectionObject := sectionObject.(review := sectionObject.review + [reviewObject]);
        ratingTotal := ratingTotal + reviewObject.rating;
        returnValue := returnValue.(averageRating :=
          Some((ratingTotal as real) / (returnValue.courseTotalReviews as real)));
        j := j + 1;
      }

      assert review[..j] == review;
      assert sectionObject == SectionRollup(sections[i]);
      PrefixStep(sections, i);
      RatingsAppend(visited, review);
      SumAppend(Ratings(visited), Ratings(review));
      visited := visited + review;
      returnValue := returnValue.(sections := returnValue.sections + [sectionObject]);
      i := i + 1;
    }
    assert sections[..i] == sections;
  }
}
