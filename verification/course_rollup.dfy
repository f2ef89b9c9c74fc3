/**
  What the courses endpoint computes, stated as one-shot folds: each section's
  view from its own reviews, and the course totals from the union of every
  section's reviews. The handler's nested loops are proved equal to `Rollup`.
 */
module CourseRollup {
  import opened Wrappers
  import opened CourseData
  import opened RatingStats

  /** Every review of every section, section after section, in order. */
  function AllReviews(sections: seq<SectionDoc>): seq<ReviewDoc>
  {
    if sections == [] then []
    else AllReviews(sections[..|sections| - 1]) + sections[|sections| - 1].reviews
  }

  /** The `{comment, rating}` object pushed for one review. */
  function ToReviewObject(r: ReviewDoc): (o: ReviewObject)
    ensures o.comment == r.comment && o.rating == r.rating
  {
    ReviewObject(r.comment, r.rating)
  }

  /** The review objects pushed for some reviews, one per review, in order. */
  function ReviewObjects(rs: seq<ReviewDoc>): seq<ReviewObject>
  {
    seq(|rs|, k requires 0 <= k < |rs| => ToReviewObject(rs[k]))
  }

  /** The view of one section, computed from that section alone. */
  function SectionRollup(s: SectionDoc): (v: SectionObject)
    ensures v.lecturerName == s.lectName
    ensures |v.review| == |s.reviews|
    ensures forall k :: 0 <= k < |s.reviews| ==>
      v.review[k].comment == s.reviews[k].comment && v.review[k].rating == s.reviews[k].rating
    ensures s.reviews == [] ==> v.ratingNumberPerSection.None? && v.averageRating.None?
    ensures s.reviews != [] ==> v.ratingNumberPerSection == Some(|s.reviews|) && v.averageRating.Some?
  {
    SectionObject(
      s.lectName,
      ReviewObjects(s.reviews),
      if s.reviews == [] then None else Some(|s.reviews|),
      Average(Sum(Ratings(s.reviews)), |s.reviews|))
  }

  /** The views of all sections, one per section, in input order. */
  function SectionViews(sections: seq<SectionDoc>): seq<SectionObject>
  {
    seq(|sections|, i requires 0 <= i < |sections| => SectionRollup(sections[i]))
  }

  /** The response for `course` and its resolved `sections`: course totals are
      taken over the union of all reviews, so they are review-weighted. */
  function Rollup(course: CourseDoc, sections: seq<SectionDoc>): (r: CourseResponse)
    ensures r.courseNumber == course.courseNum && r.name == course.courseName
    ensures r.courseTotalReviews == |AllReviews(sections)|
    ensures r.averageRating.Some? <==> r.courseTotalReviews > 0
  {
    var all := AllReviews(sections);
    CourseResponse(course.courseNum, course.courseName, SectionViews(sections),
                   |all|, Average(Sum(Ratings(all)), |all|))
  }

  /** One entry per input section, in input order, each computed from its own
      section alone, so no section's figures leak into another's. */
  lemma SectionsInInputOrder(course: CourseDoc, sections: seq<SectionDoc>)
    ensures |Rollup(course, sections).sections| == |sections|
    ensures forall i :: 0 <= i < |sections| ==> Rollup(course, sections).sections[i] == SectionRollup(sections[i])
  {
  }

  /** A section's average is the mean of that section's ratings only: the
      running sum starts from zero for every section. */
  lemma SectionAverageIsMean(s: SectionDoc)
    requires s.reviews != []
    ensures SectionRollup(s).averageRating.value * (|s.reviews| as real) == Sum(Ratings(s.reviews)) as real
  {
  }

  /** The course average is the mean over the union of every section's reviews. */
  lemma CourseAverageIsMeanOfAllReviews(course: CourseDoc, sections: seq<SectionDoc>)
    requires Rollup(course, sections).courseTotalReviews > 0
    ensures var r := Rollup(course, sections);
      r.averageRating.value * (r.courseTotalReviews as real) == Sum(Ratings(AllReviews(sections))) as real
  {
  }

  /** Sum of the per-section review counts the response reports (unset counts as 0). */
  function ReportedCountSum(views: seq<SectionObject>): nat
  {
    if views == [] then 0
    else ReportedCountSum(views[..|views| - 1]) + views[|views| - 1].ratingNumberPerSection.GetOr(0)
  }

  /** The rating total one section's reported figures stand for: its average
      times its count (nothing when unset). */
  function WeightedAverage(v: SectionObject): real
  {
    if v.averageRating.Some? then v.averageRating.value * (v.ratingNumberPerSection.GetOr(0) as real) else 0.0
  }

  /** Sum over sections of section average times section count. */
  function WeightedRatingSum(views: seq<SectionObject>): real
  {
    if views == [] then 0.0
    else WeightedRatingSum(views[..|views| - 1]) + WeightedAverage(views[|views| - 1])
  }

  /** Extending a prefix of the sections by one section appends exactly its
      view and its reviews. */
  lemma PrefixStep(sections: seq<SectionDoc>, i: nat)
    requires i < |sections|
    ensures SectionViews(sections[..i + 1]) == SectionViews(sections[..i]) + [SectionRollup(sections[i])]
    ensures AllReviews(sections[..i + 1]) == AllReviews(sections[..i]) + sections[i].reviews
  {
    assert sections[..i + 1][..i] == sections[..i];
  }

  /** What one section contributes to the two sums above. */
  lemma SectionContribution(s: SectionDoc)
    ensures SectionRollup(s).ratingNumberPerSection.GetOr(0) == |s.reviews|
    ensures WeightedAverage(SectionRollup(s)) == Sum(Ratings(s.reviews)) as real
  {
  }

  /** The per-section counts add up to the number of reviews in the union. */
  lemma {:induction false} SectionCountsAddUp(sections: seq<SectionDoc>)
    ensures ReportedCountSum(SectionViews(sections)) == |AllReviews(sections)|
  {
    if sections != [] {
      var n := |sections| - 1;
      var vs := SectionViews(sections);
      SectionCountsAddUp(sections[..n]);
      PrefixStep(sections, n);
      assert sections[..n + 1] == sections;
      SectionContribution(sections[n]);
      assert ReportedCountSum(vs) == ReportedCountSum(vs[..n]) + |sections[n].reviews|;
    }
  }

  /** The per-section averages, weighted by their counts, add up to the rating
      total over the union of all reviews. */
  lemma {:induction false} SectionRatingsAddUp(sections: seq<SectionDoc>)
    ensures WeightedRatingSum(SectionViews(sections)) == Sum(Ratings(AllReviews(sections))) as real
  {
    if sections != [] {
      var n := |sections| - 1;
      var s := sections[n];
      var vs := SectionViews(sections);
      var prev := AllReviews(sections[..n]);
      SectionRatingsAddUp(sections[..n]);
      PrefixStep(sections, n);
      assert sections[..n + 1] == sections;
      SectionContribution(s);
      var last := Sum(Ratings(s.reviews));
      assert WeightedRatingSum(vs) == WeightedRatingSum(vs[..n]) + last as real;
      assert WeightedRatingSum(vs[..n]) == Sum(Ratings(prev)) as real;
      assert AllReviews(sections) == prev + s.reviews;
      RatingsAppend(prev, s.reviews);
      SumAppend(Ratings(prev), Ratings(s.reviews));
      assert Sum(Ratings(AllReviews(sections))) == Sum(Ratings(prev)) + last;
    }
  }

  /** The course total is the sum of the sections' reported review counts. */
  lemma CourseTotalIsSumOfSectionCounts(course: CourseDoc, sections: seq<SectionDoc>)
    ensures Rollup(course, sections).courseTotalReviews == ReportedCountSum(Rollup(course, sections).sections)
  {
    SectionCountsAddUp(sections);
  }

  /** The course average is review-weighted: it is the mean of the section
      averages weighted by each section's review count, not their plain mean. */
  lemma CourseAverageIsReviewWeighted(course: CourseDoc, sections: seq<SectionDoc>)
    ensures var r := Rollup(course, sections);
      r.averageRating.Some? ==>
        r.averageRating.value * (r.courseTotalReviews as real) == WeightedRatingSum(r.sections)
  {
    SectionRatingsAddUp(sections);
    if Rollup(course, sections).courseTotalReviews > 0 {
      CourseAverageIsMeanOfAllReviews(course, sections);
    }
  }

  lemma {:induction false} NoReviewsIffAllSectionsEmpty(sections: seq<SectionDoc>)
    ensures |AllReviews(sections)| == 0 <==> forall i :: 0 <= i < |sections| ==> sections[i].reviews == []
  {
    if sections != [] {
      var n := |sections| - 1;
      NoReviewsIffAllSectionsEmpty(sections[..n]);
      assert forall i :: 0 <= i < n ==> sections[..n][i] == sections[i];
    }
  }

  /** A course without any review reports a total of zero and no course
      average, and then no section reports a count or an average; conversely
      one review anywhere sets the course average. */
  lemma NoReviewsLeavesAveragesUnset(course: CourseDoc, sections: seq<SectionDoc>)
    ensures var r := Rollup(course, sections);
      (r.averageRating.None? <==> forall i :: 0 <= i < |sections| ==> sections[i].reviews == []) &&
      (r.averageRating.None? ==> r.courseTotalReviews == 0) &&
      (r.averageRating.None? ==> forall i :: 0 <= i < |r.sections| ==>
         r.sections[i].ratingNumberPerSection.None? && r.sections[i].averageRating.None?)
  {
    NoReviewsIffAllSectionsEmpty(sections);
  }

  lemma RatingsMultisetSize(a: seq<ReviewDoc>, b: seq<ReviewDoc>)
    requires multiset(Ratings(a)) == multiset(Ratings(b))
    ensures |a| == |b|
  {
    assert |Ratings(a)| == |multiset(Ratings(a))| == |multiset(Ratings(b))| == |Ratings(b)|;
  }

  /** A section's count and average depend only on the multiset of its ratings,
      not on the order the reviews arrive in. */
  lemma SectionStatsIgnoreReviewOrder(a: SectionDoc, b: SectionDoc)
    requires multiset(Ratings(a.reviews)) == multiset(Ratings(b.reviews))
    ensures SectionRollup(a).ratingNumberPerSection == SectionRollup(b).ratingNumberPerSection
    ensures SectionRollup(a).averageRating == SectionRollup(b).averageRating
  {
    RatingsMultisetSize(a.reviews, b.reviews);
    SumPermutation(Ratings(a.reviews), Ratings(b.reviews));
  }

  /** The course totals depend only on the multiset of all ratings: reordering
      sections, or reviews within or across them, changes neither. */
  lemma CourseStatsIgnoreOrder(course: CourseDoc, s1: seq<SectionDoc>, s2: seq<SectionDoc>)
    requires multiset(Ratings(AllReviews(s1))) == multiset(Ratings(AllReviews(s2)))
    ensures Rollup(course, s1).courseTotalReviews == Rollup(course, s2).courseTotalReviews
    ensures Rollup(course, s1).averageRating == Rollup(course, s2).averageRating
  {
    RatingsMultisetSize(AllReviews(s1), AllReviews(s2));
    SumPermutation(Ratings(AllReviews(s1)), Ratings(AllReviews(s2)));
  }

  /** When every rating is within the domain's 1..5 range, so are all averages. */
  lemma AveragesWithinRatingRange(course: CourseDoc, sections: seq<SectionDoc>)
    requires forall i, k :: 0 <= i < |sections| && 0 <= k < |sections[i].reviews| ==>
      MinRating <= sections[i].reviews[k].rating <= MaxRating
    ensures var r := Rollup(course, sections);
      r.averageRating.Some? ==> MinRating as real <= r.averageRating.value <= MaxRating as real
    ensures var r := Rollup(course, sections);
      forall i :: 0 <= i < |r.sections| && r.sections[i].averageRating.Some? ==>
        MinRating as real <= r.sections[i].averageRating.value <= MaxRating as real
  {
    forall i | 0 <= i < |sections| && sections[i].reviews != []
      ensures MinRating as real <= SectionRollup(sections[i]).averageRating.value <= MaxRating as real
    {
      AverageInRange(Ratings(sections[i].reviews));
    }
    AllReviewsInRange(sections);
    var all := AllReviews(sections);
    if all != [] {
      AverageInRange(Ratings(all));
    }
  }

  lemma {:induction false} AllReviewsInRange(sections: seq<SectionDoc>)
    requires forall i, k :: 0 <= i < |sections| && 0 <= k < |sections[i].reviews| ==>
      MinRating <= sections[i].reviews[k].rating <= MaxRating
    ensures forall k :: 0 <= k < |AllReviews(sections)| ==>
      MinRating <= AllReviews(sections)[k].rating <= MaxRating
  {
    if sections != [] {
      var n := |sections| - 1;
      assert forall i :: 0 <= i < n ==> sections[..n][i] == sections[i];
      AllReviewsInRange(sections[..n]);
    }
  }
}
