/** The classroom page: which video is selected, the lookup of the current
    video, the completed-video count, and the complete/incomplete actions
    against the progress store. */
module Classroom {
  import opened Wrappers
  import opened Seqs

  datatype Video = Video(id: int, title: string, duration: string, url: string)

  datatype Course = Course(id: int, courseName: string, videos: seq<Video>)

  /** The page's course: the route id and five hard-coded videos. */
  function MockCourse(routeId: int): (c: Course)
    ensures c.id == routeId && |c.videos| == 5
    ensures forall i :: 0 <= i < |c.videos| ==> c.videos[i].id == i + 1
  {
    Course(routeId, "React Fundamentals", [
      Video(1, "Introduction to React", "10:30", "https://www.youtube.com/embed/SqcY0GlETPk"),
      Video(2, "JSX and Components", "15:45", "https://www.youtube.com/embed/Tn6-PIqc4UM"),
      Video(3, "Props and State", "20:15", "https://www.youtube.com/embed/O6P86uwfdR0"),
      Video(4, "Event Handling", "12:30", "https://www.youtube.com/embed/Rh3tobg7hEo"),
      Video(5, "Hooks Introduction", "18:20", "https://www.youtube.com/embed/TNhaISOUy6Q")])
  }

  /** The mock course's videos have distinct ids. */
  lemma MockCourseDistinct(routeId: int)
    ensures DistinctIds(MockCourse(routeId).videos)
  {
  }

  /** No two videos share an id. */
  predicate DistinctIds(videos: seq<Video>) {
    forall i, j :: 0 <= i < j < |videos| ==> videos[i].id != videos[j].id
  }

  /** The progress store seen as the set of completed (course id, video id)
      pairs; `isVideoCompleted`. */
  predicate IsVideoCompleted(done: set<(int, int)>, courseId: int, videoId: int) {
    (courseId, videoId) in done
  }

  /** `videos.filter(video => isVideoCompleted(courseId, video.id)).length`:
      between none and all of the videos, and all exactly when every video
      is completed. */
  function CompletedCount(done: set<(int, int)>, courseId: int, videos: seq<Video>): (n: nat)
    ensures n <= |videos|
    ensures n == |videos| <==> forall i :: 0 <= i < |videos| ==> IsVideoCompleted(done, courseId, videos[i].id)
    ensures n == 0 <==> forall i :: 0 <= i < |videos| ==> !IsVideoCompleted(done, courseId, videos[i].id)
  {
    |Filter(videos, CompletedIn(done, courseId))|
  }

  /** The filter's predicate, `video => isVideoCompleted(courseId, video.id)`. */
  function CompletedIn(done: set<(int, int)>, courseId: int): Video -> bool {
    (v: Video) => IsVideoCompleted(done, courseId, v.id)
  }

  /** The count of a non-empty list: the head's contribution plus the tail's count. */
  lemma CompletedCountCons(done: set<(int, int)>, courseId: int, videos: seq<Video>)
    requires videos != []
    ensures CompletedCount(done, courseId, videos) ==
      (if IsVideoCompleted(done, courseId, videos[0].id) then 1 else 0) + CompletedCount(done, courseId, videos[1..])
  {
    FilterCons(videos, CompletedIn(done, courseId));
  }

  /** The tail of a list whose head is `videoId` and whose ids are distinct
      does not list `videoId`; any tail keeps distinct ids. */
  lemma TailFacts(videos: seq<Video>, videoId: int)
    requires videos != [] && DistinctIds(videos)
    ensures DistinctIds(videos[1..])
    ensures videos[0].id == videoId ==> !HasVideo(videos[1..], videoId)
    ensures videos[0].id != videoId && HasVideo(videos, videoId) ==> HasVideo(videos[1..], videoId)
  {
    if videos[0].id != videoId && HasVideo(videos, videoId) {
      var i :| 0 <= i < |videos| && videos[i].id == videoId;
      assert videos[1..][i - 1].id == videoId;
    }
  }

  /** A tail of a list without `videoId` does not list it either. */
  lemma TailLacks(videos: seq<Video>, videoId: int)
    requires videos != [] && !HasVideo(videos, videoId)
    ensures !HasVideo(videos[1..], videoId)
  {
  }

  predicate HasVideo(videos: seq<Video>, videoId: int) {
    exists i :: 0 <= i < |videos| && videos[i].id == videoId
  }

  /** Marking a listed video that was not completed raises the count by one. */
  lemma {:induction false} MarkCompletedAddsOne(done: set<(int, int)>, courseId: int, videos: seq<Video>, videoId: int)
    requires DistinctIds(videos) && HasVideo(videos, videoId)
    requires !IsVideoCompleted(done, courseId, videoId)
    ensures CompletedCount(done + {(courseId, videoId)}, courseId, videos) == CompletedCount(done, courseId, videos) + 1
  {
    var after := done + {(courseId, videoId)};
    CompletedCountCons(done, courseId, videos);
    CompletedCountCons(after, courseId, videos);
    TailFacts(videos, videoId);
    if videos[0].id == videoId {
      MarkOtherUnchanged(done, courseId, videos[1..], courseId, videoId);
    } else {
      MarkCompletedAddsOne(done, courseId, videos[1..], videoId);
    }
  }

  /** Unmarking a listed video that was completed lowers the count by one. */
  lemma MarkIncompleteRemovesOne(done: set<(int, int)>, courseId: int, videos: seq<Video>, videoId: int)
    requires DistinctIds(videos) && HasVideo(videos, videoId)
    requires IsVideoCompleted(done, courseId, videoId)
    ensures CompletedCount(done - {(courseId, videoId)}, courseId, videos) == CompletedCount(done, courseId, videos) - 1
  {
    var before := done - {(courseId, videoId)};
    assert before + {(courseId, videoId)} == done;
    MarkCompletedAddsOne(before, courseId, videos, videoId);
  }

  /** A pair for another course, or for a video that is not listed, does not
      change the count. */
  lemma {:induction false} MarkOtherUnchanged(done: set<(int, int)>, courseId: int, videos: seq<Video>,
                                              otherCourse: int, videoId: int)
    requires otherCourse != courseId || !HasVideo(videos, videoId)
    ensures CompletedCount(done + {(otherCourse, videoId)}, courseId, videos) == CompletedCount(done, courseId, videos)
    ensures CompletedCount(done - {(otherCourse, videoId)}, courseId, videos) == CompletedCount(done, courseId, videos)
  {
    if videos != [] {
      CompletedCountCons(done, courseId, videos);
      CompletedCountCons(done + {(otherCourse, videoId)}, courseId, videos);
      CompletedCountCons(done - {(otherCourse, videoId)}, courseId, videos);
      if otherCourse == courseId {
        TailLacks(videos, videoId);
      }
      MarkOtherUnchanged(done, courseId, videos[1..], otherCourse, videoId);
    }
  }

  /** The progress store the page reads and writes (its own file is not part
      of this model). */
  class ProgressStore {
    var completed: set<(int, int)>

    constructor (completed: set<(int, int)>)
      ensures this.completed == completed
    {
      this.completed := completed;
    }

    method MarkVideoCompleted(courseId: int, videoId: int)
      modifies this
      ensures completed == old(completed) + {(courseId, videoId)}
    {
      completed := completed + {(courseId, videoId)};
    }

    method MarkVideoIncomplete(courseId: int, videoId: int)
      modifies this
      ensures completed == old(completed) - {(courseId, videoId)}
    {
      completed := completed - {(courseId, videoId)};
    }
  }

  /** The page's state: the route id, the course (absent until the effect has
      run) and the selected index. */
  class ClassroomPage {
    var routeId: int
    var course: Option<Course>
    var selectedVideo: nat
    const store: ProgressStore

    /** The selection is a valid index whenever a course is shown. */
    ghost predicate Valid()
      reads this
    {
      (course.None? ==> selectedVideo == 0) &&
      (course.Some? ==> course.value == MockCourse(routeId) && selectedVideo < |course.value.videos|)
    }

    constructor (routeId: int, store: ProgressStore)
      ensures Valid() && this.routeId == routeId && this.store == store
      ensures course.None? && selectedVideo == 0
    {
      this.routeId := routeId;
      this.store := store;
      course := None;
      selectedVideo := 0;
    }

    /** The effect on the route id: the mock course is set for `id`; the
        selection is left as it is. */
    method LoadCourse(id: int)
      requires Valid()
      modifies this`routeId, this`course
      ensures Valid() && routeId == id && course == Some(MockCourse(id))
      ensures selectedVideo == old(selectedVideo)
    {
      routeId := id;
      course := Some(MockCourse(id));
    }

    /** `course.videos[selectedVideo]`. */
    function CurrentVideo(): (v: Video)
      requires Valid() && course.Some?
      reads this
      ensures v in course.value.videos
    {
      course.value.videos[selectedVideo]
    }

    /** The arguments of `getCourseProgress`: the course id, which is the
        route id, and the number of videos, which is the five of the mock
        course and bounds the "n / m videos completed" figure. */
    function ProgressQuery(): (q: (int, int))
      requires Valid() && course.Some?
      reads this, store
      ensures q.0 == routeId && q.1 == 5
      ensures 0 < q.1 && CompletedShown() <= q.1
    {
      (course.value.id, |course.value.videos|)
    }

    /** The "n / m videos completed" figure. */
    function CompletedShown(): (n: nat)
      requires course.Some?
      reads this, store
      ensures n <= |course.value.videos|
    {
      CompletedCount(store.completed, course.value.id, course.value.videos)
    }

    /** "Mark as Incomplete" is offered only for a completed current video. */
    predicate OffersIncomplete()
      requires Valid() && course.Some?
      reads this, store
    {
      IsVideoCompleted(store.completed, course.value.id, CurrentVideo().id)
    }

    /** A click on playlist entry `index` of the enumerated video list. */
    method SelectVideo(index: nat)
      requires Valid() && course.Some? && index < |course.value.videos|
      modifies this`selectedVideo
      ensures Valid() && selectedVideo == index
    {
      selectedVideo := index;
    }

    /** `handleVideoComplete(currentVideo.id)`: the store gains exactly the
        current pair; the selection does not move. */
    method HandleVideoComplete()
      requires Valid() && course.Some?
      modifies store
      ensures store.completed == old(store.completed) + {(course.value.id, CurrentVideo().id)}
      ensures OffersIncomplete()
      ensures selectedVideo == old(selectedVideo) && course == old(course)
      ensures CompletedShown() == old(CompletedShown()) + (if old(OffersIncomplete()) then 0 else 1)
    {
      var before := store.completed;
      store.MarkVideoCompleted(course.value.id, CurrentVideo().id);
      MockCourseDistinct(routeId);
      if !IsVideoCompleted(before, course.value.id, CurrentVideo().id) {
        MarkCompletedAddsOne(before, course.value.id, course.value.videos, CurrentVideo().id);
      } else {
        assert store.completed == before;
      }
    }

    /** `handleVideoIncomplete(currentVideo.id)`: the store loses exactly the
        current pair; the selection does not move. */
    method HandleVideoIncomplete()
      requires Valid() && course.Some?
      modifies store
      ensures store.completed == old(store.completed) - {(course.value.id, CurrentVideo().id)}
      ensures !OffersIncomplete()
      ensures selectedVideo == old(selectedVideo) && course == old(course)
      ensures CompletedShown() == old(CompletedShown()) - (if old(OffersIncomplete()) then 1 else 0)
    {
      var before := store.completed;
      store.MarkVideoIncomplete(course.value.id, CurrentVideo().id);
      MockCourseDistinct(routeId);
      if IsVideoCompleted(before, course.value.id, CurrentVideo().id) {
        MarkIncompleteRemovesOne(before, course.value.id, course.value.videos, CurrentVideo().id);
      } else {
        assert store.completed == before;
      }
    }
  }
}
