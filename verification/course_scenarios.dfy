/** Concrete courses worked through the rollup. */
module CourseScenarios {
  import opened Wrappers
  import opened CourseData
  import opened RatingStats
  import opened CourseRollup

  lemma AllReviewsOfTwo(a: SectionDoc, b: SectionDoc)
    ensures AllReviews([a, b]) == a.reviews + b.reviews
  {
    assert [a, b][..1] == [a];
    assert [a][..0] == [];
    assert AllReviews([a]) == [] + a.reviews == a.reviews;
  }

  /** The response for a course with exactly two sections, spelled out. */
  lemma TwoSections(course: CourseDoc, a: SectionDoc, b: SectionDoc)
    ensures Rollup(course, [a, b]).sections == [SectionRollup(a), SectionRollup(b)]
    ensures Rollup(course, [a, b]).courseTotalReviews == |a.reviews| + |b.reviews|
    ensures Rollup(course, [a, b]).averageRating ==
      Average(Sum(Ratings(a.reviews)) + Sum(Ratings(b.reviews)), |a.reviews| + |b.reviews|)
  {
    AllReviewsOfTwo(a, b);
    RatingsAppend(a.reviews, b.reviews);
    SumAppend(Ratings(a.reviews), Ratings(b.reviews));
  }

  lemma SumOfTwo(x: int, y: int)
    ensures Sum([x, y]) == x + y
  {
    assert [x, y][..1] == [x];
    SumOfOne(x);
  }

  lemma SumOfOne(x: int)
    ensures Sum([x]) == x
  {
    assert [x][..0] == [];
  }

  /** Two sections rated [5, 5] and [1]: the course average is 11/3, the mean
      over all three reviews, and not 3, the mean of the two section averages. */
  lemma ReviewWeightedNotSectionWeighted(course: CourseDoc)
    ensures var r := Rollup(course, [SectionDoc("A", [ReviewDoc("", 5), ReviewDoc("", 5)]),
                                     SectionDoc("B", [ReviewDoc("", 1)])]);
      r.courseTotalReviews == 3 &&
      r.averageRating == Some(11.0 / 3.0) &&
      r.sections[0].averageRating == Some(5.0) &&
      r.sections[1].averageRating == Some(1.0) &&
      r.averageRating != Some((5.0 + 1.0) / 2.0)
  {
    var a := SectionDoc("A", [ReviewDoc("", 5), ReviewDoc("", 5)]);
    var b := SectionDoc("B", [ReviewDoc("", 1)]);
    TwoSections(course, a, b);
    assert Ratings(a.reviews) == [5, 5];
    assert Ratings(b.reviews) == [1];
    SumOfTwo(5, 5);
    SumOfOne(1);
  }

  /** KIEI-451 with Brian Eng's section rated [4, 5] and Ben Block's rated [3]:
      3 reviews averaging 4, sections averaging 4.5 and 3. */
  lemma Kiei451()
    ensures var r := Rollup(CourseDoc("KIEI-451", "Intro to Software Development"),
                            [SectionDoc("Brian Eng", [ReviewDoc("", 4), ReviewDoc("", 5)]),
                             SectionDoc("Ben Block", [ReviewDoc("", 3)])]);
      r.courseNumber == "KIEI-451" && r.name == "Intro to Software Development" &&
      r.courseTotalReviews == 3 && r.averageRating == Some(4.0) &&
      |r.sections| == 2 &&
      r.sections[0].lecturerName == "Brian Eng" &&
      r.sections[0].ratingNumberPerSection == Some(2) && r.sections[0].averageRating == Some(4.5) &&
      r.sections[1].lecturerName == "Ben Block" &&
      r.sections[1].ratingNumberPerSection == Some(1) && r.sections[1].averageRating == Some(3.0)
  {
    var a := SectionDoc("Brian Eng", [ReviewDoc("", 4), ReviewDoc("", 5)]);
    var b := SectionDoc("Ben Block", [ReviewDoc("", 3)]);
    TwoSections(CourseDoc("KIEI-451", "Intro to Software Development"), a, b);
    assert Ratings(a.reviews) == [4, 5];
    assert Ratings(b.reviews) == [3];
    SumOfTwo(4, 5);
    SumOfOne(3);
  }

  /** KIEI-925 with one section and no reviews: a zero total, and neither the
      course nor the section gets an average or a count. */
  lemma Kiei925(lecturer: string)
    ensures var r := Rollup(CourseDoc("KIEI-925", ""), [SectionDoc(lecturer, [])]);
      r.courseTotalReviews == 0 && r.averageRating == None &&
      |r.sections| == 1 && r.sections[0].review == [] &&
      r.sections[0].ratingNumberPerSection == None && r.sections[0].averageRating == None
  {
    var s := SectionDoc(lecturer, []);
    assert [s][..0] == [];
    assert AllReviews([s]) == [];
  }
}
