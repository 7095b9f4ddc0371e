/** The course search page: the total mapping from a loosely typed search
    response to result cards, and the `isSearching`/`hasSearched`/`results`
    state around the search call. */
module Search {
  import opened Wrappers
  import opened Text
  import opened Roles

  /** A truthy string: present strings are never empty. */
  type Word = s: string | s != "" witness "?"

  /** A truthy number. */
  type Amount = x: real | x != 0.0 witness 1.0

  /** A truthy numeric id. */
  type Key = k: int | k != 0 witness 1

  datatype Trainer = Trainer(name: Option<Word>, imageUrl: Option<Word>, rating: Option<Amount>)

  /** One course object of the response, every field optional. */
  datatype RawCourse = RawCourse(
    id: Option<Key>, courseId: Option<Key>,
    courseName: Option<Word>, name: Option<Word>, title: Option<Word>,
    courseDescription: Option<Word>, description: Option<Word>,
    trainer: Option<Trainer>, trainerName: Option<Word>, instructor: Option<Word>,
    rating: Option<Amount>, price: Option<Amount>, duration: Option<Amount>,
    thumbnailUrl: Option<Word>, imageUrl: Option<Word>, imageId: Option<Key>,
    enrolled: bool, isEnrolled: bool)

  /** The shape of the value the search collaborator resolves with. */
  datatype SearchBody =
    | ArrayBody(items: seq<RawCourse>)
      // an array: it has neither a `courses` nor a `data` property
    | ObjectBody(courses: Option<seq<RawCourse>>, data: Option<seq<RawCourse>>)
      // any other truthy value, with the two list properties it may carry
    | FalsyBody
      // `0`, `""` or `false`: `data || []` picks the empty list
    | NullBody
      // `null` or `undefined`: reading `data.courses` throws

  /** `imageId`: a URL or a numeric image id. */
  datatype ImageRef = ImageUrl(url: Word) | ImageNumber(n: int)

  /** What a `CourseCard` receives. */
  datatype CourseCard = CourseCard(
    id: Option<Key>, courseName: Option<Word>, courseDescription: Option<Word>,
    trainer: string, trainerImage: Option<Word>,
    rating: real, price: real, duration: real,
    imageId: ImageRef, isEnrolled: bool)

  const DefaultTrainer: Word := "Unknown Instructor"
  const DefaultImage: int := 1
  const AdminHome: string := "/admin/dashboard"

  // ---------------------------------------------------------------------
  // Response normalisation

  /** `data.courses || data.data || data || []`, followed by `.map`:
      `None` where that throws (the search then takes its failure path). */
  function CourseList(body: SearchBody): (r: Option<seq<RawCourse>>)
    ensures body.ArrayBody? ==> r == Some(body.items)
    ensures body.ObjectBody? && body.courses.Some? ==> r == body.courses
    ensures body.ObjectBody? && body.courses.None? ==> r == body.data
    ensures body.FalsyBody? ==> r == Some([])
    ensures body.NullBody? ==> r == None
  {
    match body
    case ArrayBody(items) => Some(items)
    case ObjectBody(courses, data) => Or(courses, data)
    case FalsyBody => Some([])
    case NullBody => None
  }

  /** `course.trainer?.name`. */
  function TrainerName(c: RawCourse): Option<Word> {
    match c.trainer
    case Some(t) => t.name
    case None => None
  }

  function TrainerImage(c: RawCourse): Option<Word> {
    match c.trainer
    case Some(t) => t.imageUrl
    case None => None
  }

  function TrainerRating(c: RawCourse): Option<Amount> {
    match c.trainer
    case Some(t) => t.rating
    case None => None
  }

  /** `x || 0` for a number. */
  function OrZero(x: Option<Amount>): real {
    match x
    case Some(v) => v
    case None => 0.0
  }

  function Image(c: RawCourse): ImageRef {
    match Or(c.thumbnailUrl, c.imageUrl)
    case Some(url) => ImageUrl(url)
    case None =>
      match c.imageId
      case Some(n) => ImageNumber(n)
      case None => ImageNumber(DefaultImage)
  }

  /** The mapping of one course: each field takes the first present
      alternative in the listed order, and falls back to its default. */
  function ToCard(c: RawCourse): (card: CourseCard)
    ensures card.id == (if c.id.Some? then c.id else c.courseId)
    ensures card.courseName ==
      (if c.courseName.Some? then c.courseName else if c.name.Some? then c.name else c.title)
    ensures card.courseDescription ==
      (if c.courseDescription.Some? then c.courseDescription else c.description)
    ensures card.trainer ==
      (if TrainerName(c).Some? then TrainerName(c).value
       else if c.trainerName.Some? then c.trainerName.value
       else if c.instructor.Some? then c.instructor.value
       else DefaultTrainer)
    ensures card.trainer != ""
    ensures card.trainerImage == TrainerImage(c)
    ensures card.rating ==
      (if TrainerRating(c).Some? then TrainerRating(c).value
       else if c.rating.Some? then c.rating.value else 0.0)
    ensures card.price == (if c.price.Some? then c.price.value else 0.0)
    ensures card.duration == (if c.duration.Some? then c.duration.value else 0.0)
    ensures card.imageId ==
      (if c.thumbnailUrl.Some? then ImageUrl(c.thumbnailUrl.value)
       else if c.imageUrl.Some? then ImageUrl(c.imageUrl.value)
       else if c.imageId.Some? then ImageNumber(c.imageId.value)
       else ImageNumber(DefaultImage))
    ensures card.isEnrolled <==> c.enrolled || c.isEnrolled
  {
    var trainer: Word := Or(Or(TrainerName(c), c.trainerName), c.instructor).GetOr(DefaultTrainer);
    CourseCard(
      Or(c.id, c.courseId),
      Or(Or(c.courseName, c.name), c.title),
      Or(c.courseDescription, c.description),
      trainer,
      TrainerImage(c),
      OrZero(Or(TrainerRating(c), c.rating)),
      OrZero(c.price),
      OrZero(c.duration),
      Image(c),
      c.enrolled || c.isEnrolled)
  }

  /** `courses.map(...)`: one card per course, in the same order. */
  function ToCards(courses: seq<RawCourse>): (cards: seq<CourseCard>)
    ensures |cards| == |courses|
    ensures forall i :: 0 <= i < |courses| ==> cards[i] == ToCard(courses[i])
  {
    seq(|courses|, i requires 0 <= i < |courses| => ToCard(courses[i]))
  }

  /** The results a resolved search shows, or `None` when normalising the
      response throws. */
  function SearchResults(body: SearchBody): (r: Option<seq<CourseCard>>)
    ensures r.Some? <==> CourseList(body).Some?
    ensures r.Some? ==> |r.value| == |CourseList(body).value|
    ensures r.Some? ==> forall i :: 0 <= i < |r.value| ==> r.value[i].trainer != ""
  {
    match CourseList(body)
    case Some(courses) => Some(ToCards(courses))
    case None => None
  }

  /** Admins are sent to their dashboard and the page renders nothing. */
  function RedirectFor(userRole: string): (r: Option<string>)
    ensures r.Some? <==> userRole == AdminRole
    ensures r.Some? ==> r.value == AdminHome
  {
    if userRole == AdminRole then Some(AdminHome) else None
  }

  // ---------------------------------------------------------------------
  // The component's state

  /** What the search collaborator does with a request: resolve with a
      response body, or reject. */
  datatype Outcome = Resolved(body: SearchBody) | Rejected

  /** The results a finished search leaves: the mapped list when the
      response normalises, and none after a rejection or a failure. */
  function ResultsAfter(outcome: Outcome): seq<CourseCard> {
    if outcome.Resolved? && SearchResults(outcome.body).Some? then SearchResults(outcome.body).value else []
  }

  /** A page renders exactly for a non-admin role; for the admin role it
      renders nothing and the redirect to the admin dashboard applies. */
  lemma RendersIff(p: SearchPage)
    ensures p.Renders() <==> p.userRole != AdminRole
    ensures !p.Renders() ==> RedirectFor(p.userRole) == Some(AdminHome)
  {
  }

  class SearchPage {
    const userRole: string
    var query: string
    /** The `q` URL parameter; "" when absent. */
    var urlQuery: string
    var results: seq<CourseCard>
    var isSearching: bool
    var hasSearched: bool

    constructor (userRole: string, urlQuery: string)
      ensures this.userRole == userRole && this.urlQuery == urlQuery && query == urlQuery
      ensures results == [] && !isSearching && !hasSearched
    {
      this.userRole := userRole;
      this.urlQuery := urlQuery;
      query := urlQuery;
      results := [];
      isSearching := false;
      hasSearched := false;
    }

    /** The page renders, and so offers its input and buttons, only when no
        redirect applies. */
    predicate Renders() {
      RedirectFor(userRole).None?
    }

    /** `performSearch` up to its `await`: the request it sends, or `None`
        for a blank query, which changes nothing. */
    method StartSearch(searchQuery: string) returns (request: Option<string>)
      modifies this`isSearching, this`hasSearched, this`results
      ensures IsBlank(searchQuery) ==>
        request == None && isSearching == old(isSearching) &&
        hasSearched == old(hasSearched) && results == old(results)
      ensures !IsBlank(searchQuery) ==>
        request == Some(Trim(searchQuery)) && isSearching && !hasSearched && results == []
    {
      TrimEmptyIffBlank(searchQuery);
      if Trim(searchQuery) == "" {
        return None;
      }
      isSearching := true;
      hasSearched := false;
      results := [];
      request := Some(Trim(searchQuery));
    }

    /** `performSearch` after its `await`: the try, catch and finally
        blocks. A response whose normalisation throws ends like a rejection. */
    method FinishSearch(outcome: Outcome)
      modifies this`isSearching, this`hasSearched, this`results
      ensures outcome.Resolved? && SearchResults(outcome.body).Some? ==>
        results == SearchResults(outcome.body).value
      ensures outcome.Rejected? || SearchResults(outcome.body).None? ==> results == []
      ensures hasSearched && !isSearching
    {
      var mapped := if outcome.Resolved? then SearchResults(outcome.body) else None;
      if mapped.Some? {
        results := mapped.value;
        hasSearched := true;
      } else {
        results := [];
        hasSearched := true;
      }
      isSearching := false;
    }

    /** The whole of `performSearch`. */
    method PerformSearch(searchQuery: string, outcome: Outcome) returns (request: Option<string>)
      modifies this`isSearching, this`hasSearched, this`results
      ensures IsBlank(searchQuery) ==>
        request == None && isSearching == old(isSearching) &&
        hasSearched == old(hasSearched) && results == old(results)
      ensures !IsBlank(searchQuery) ==>
        request == Some(Trim(searchQuery)) && hasSearched && !isSearching &&
        results == ResultsAfter(outcome)
    {
      request := StartSearch(searchQuery);
      if request.Some? {
        FinishSearch(outcome);
      }
    }

    /** The effect on the URL parameter: a non-blank `q` is copied into the
        box and searched. On the admin's page the render returned before
        `performSearch` was initialised, so the call throws (`crashed`)
        after the box has been set, and nothing is sent. */
    method SearchFromUrl(outcome: Outcome) returns (request: Option<string>, crashed: bool)
      modifies this`query, this`isSearching, this`hasSearched, this`results
      ensures IsBlank(old(urlQuery)) ==>
        request == None && !crashed && query == old(query) && isSearching == old(isSearching) &&
        hasSearched == old(hasSearched) && results == old(results)
      ensures !IsBlank(old(urlQuery)) && !Renders() ==>
        request == None && crashed && query == urlQuery && isSearching == old(isSearching) &&
        hasSearched == old(hasSearched) && results == old(results)
      ensures !IsBlank(old(urlQuery)) && Renders() ==>
        request == Some(Trim(urlQuery)) && !crashed && query == urlQuery &&
        hasSearched && !isSearching && results == ResultsAfter(outcome)
    {
      TrimEmptyIffBlank(urlQuery);
      crashed := false;
      if urlQuery == "" || Trim(urlQuery) == "" {
        return None, false;
      }
      query := urlQuery;
      if !Renders() {
        return None, true;
      }
      request := PerformSearch(urlQuery, outcome);
    }

    /** A search for `searchQuery` while `q` is set to `urlValue`, followed
        by the URL effect when `q` changed. The page's search and the
        effect's search run side by side; `settlesFirst` and `settlesLast`
        are the outcomes in the order they settle, and the last one decides
        the results. */
    method SearchAndSetUrl(searchQuery: string, urlValue: string, settlesFirst: Outcome, settlesLast: Outcome)
      returns (requests: seq<string>)
      requires Renders() && !IsBlank(searchQuery) && !IsBlank(urlValue)
      modifies this`query, this`urlQuery, this`isSearching, this`hasSearched, this`results
      ensures urlQuery == urlValue && hasSearched && !isSearching
      ensures old(urlQuery) == urlValue ==>
        requests == [Trim(searchQuery)] && query == old(query) && results == ResultsAfter(settlesFirst)
      ensures old(urlQuery) != urlValue ==>
        requests == [Trim(searchQuery), Trim(urlValue)] && query == urlValue &&
        results == ResultsAfter(settlesLast)
    {
      var changed := urlQuery != urlValue;
      urlQuery := urlValue;
      var sent := PerformSearch(searchQuery, settlesFirst);
      requests := [sent.value];
      if changed {
        // the URL effect, on a page that renders
        query := urlValue;
        var again := PerformSearch(urlValue, settlesLast);
        requests := [sent.value, again.value];
      }
    }

    /** `handleSubmit`: a blank query does nothing; otherwise the trimmed
        query goes into the URL and to the search, and a changed URL makes
        the URL effect search it once more. */
    method HandleSubmit(settlesFirst: Outcome, settlesLast: Outcome) returns (requests: seq<string>)
      requires Renders()
      modifies this`query, this`urlQuery, this`isSearching, this`hasSearched, this`results
      ensures IsBlank(old(query)) ==>
        requests == [] && query == old(query) && urlQuery == old(urlQuery) &&
        isSearching == old(isSearching) && hasSearched == old(hasSearched) && results == old(results)
      ensures !IsBlank(old(query)) ==>
        var t := Trim(old(query));
        urlQuery == t && hasSearched && !isSearching &&
        (old(urlQuery) == t ==>
           requests == [t] && query == old(query) && results == ResultsAfter(settlesFirst)) &&
        (old(urlQuery) != t ==>
           requests == [t, t] && query == t && results == ResultsAfter(settlesLast))
    {
      TrimEmptyIffBlank(query);
      if Trim(query) == "" {
        return [];
      }
      TrimIdempotent(query);
      requests := SearchAndSetUrl(query, Trim(query), settlesFirst, settlesLast);
    }

    /** Typing into the box, followed by the effect that resets the search
        (and drops the URL parameter) when the query becomes blank. */
    method SetQuery(q: string)
      requires Renders()
      modifies this`query, this`urlQuery, this`isSearching, this`hasSearched, this`results
      ensures query == q
      ensures IsBlank(q) ==> results == [] && !hasSearched && !isSearching && urlQuery == ""
      ensures !IsBlank(q) ==>
        urlQuery == old(urlQuery) && results == old(results) &&
        hasSearched == old(hasSearched) && isSearching == old(isSearching)
    {
      query := q;
      TrimEmptyIffBlank(q);
      if Trim(q) == "" {
        results := [];
        hasSearched := false;
        isSearching := false;
        if urlQuery != "" {
          urlQuery := "";
        }
      }
    }

    /** A click on one of the "Popular Searches" buttons, labelled `term`
        (every label is a non-blank word). The box and the URL take the
        label as it is, and a changed URL makes the URL effect search it
        once more. */
    method PickPopular(term: string, settlesFirst: Outcome, settlesLast: Outcome) returns (requests: seq<string>)
      requires Renders() && !IsBlank(term)
      modifies this`query, this`urlQuery, this`isSearching, this`hasSearched, this`results
      ensures query == term && urlQuery == term && hasSearched && !isSearching
      ensures old(urlQuery) == term ==> requests == [Trim(term)] && results == ResultsAfter(settlesFirst)
      ensures old(urlQuery) != term ==>
        requests == [Trim(term), Trim(term)] && results == ResultsAfter(settlesLast)
    {
      query := term;
      requests := SearchAndSetUrl(term, term, settlesFirst, settlesLast);
    }
  }
}
