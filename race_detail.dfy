/** A race detail page: the race whose id the page carries, looked up in
    `races.json`, written into the page's detail fields, followed by the
    testimonials for that race from `testimonials.json`. */
module RaceDetail {
  import opened Wrappers
  import opened PageData

  const RacesUrl := "../data/races.json"
  const TestimonialsUrl := "../data/testimonials.json"

  const CriticalTitle := "Critical Error Loading Race Data"
  const CriticalDescription :=
    "There was a critical error fetching the event data. Please check the console for details, or ensure the server is running and data files are valid."

  /** A child of `testimonials-container`. `Markup` is the template's own
      content. */
  datatype TestimonialNode =
    | TestimonialCard(quote: string, author: string)
    | ReviewPlaceholder
    | Markup(html: string)

  /** The text, image and link properties of the page's detail elements. */
  datatype DetailFields = DetailFields(
    pageTitle: string,        // page-title
    titleHero: string,        // race-title-hero
    dateHero: string,         // race-date-hero
    heroBackground: string,   // race-hero background image
    description: string,      // race-description
    mapSrc: string,           // course-map-image src
    mapAlt: string,           // course-map-image alt
    sidebarDistance: string,  // sidebar-distance
    sidebarDate: string,      // sidebar-date
    sidebarCost: string,      // sidebar-cost
    entryHref: string,        // entry-button href
    entryText: string)        // entry-button text

  /** `races.find(r => r.id === raceId)`: the first race carrying the id. */
  function FindRace(races: seq<Race>, raceId: string): (r: Option<Race>)
    ensures r.None? <==> forall i :: 0 <= i < |races| ==> races[i].id != Some(raceId)
    ensures r.Some? ==> exists k :: 0 <= k < |races| && races[k] == r.value && r.value.id == Some(raceId) &&
                                    forall j :: 0 <= j < k ==> races[j].id != Some(raceId)
    decreases |races|
  {
    if races == [] then None
    else if races[0].id == Some(raceId) then Some(races[0])
    else
      var r := FindRace(races[1..], raceId);
      assert forall i :: 1 <= i < |races| ==> races[i] == races[1..][i - 1];
      if r.Some? then
        var k :| 0 <= k < |races[1..]| && races[1..][k] == r.value && r.value.id == Some(raceId) &&
                 forall j :: 0 <= j < k ==> races[1..][j].id != Some(raceId);
        assert races[k + 1] == r.value;
        r
      else
        r
  }

  /** `testimonials.filter(t => t.race_id === raceId)`. */
  function ForRace(testimonials: seq<Testimonial>, raceId: string): (r: seq<Testimonial>)
    ensures |r| <= |testimonials|
    ensures forall t :: t in r <==> t in testimonials && t.raceId == Some(raceId)
    decreases |testimonials|
  {
    if testimonials == [] then []
    else
      var t := testimonials[0];
      assert forall u :: u in testimonials <==> u == t || u in testimonials[1..];
      (if t.raceId == Some(raceId) then [t] else []) + ForRace(testimonials[1..], raceId)
  }

  /** The filter keeps list order: filtering a concatenation concatenates the
      filtered parts. */
  lemma {:induction false} ForRaceAppend(a: seq<Testimonial>, b: seq<Testimonial>, raceId: string)
    ensures ForRace(a + b, raceId) == ForRace(a, raceId) + ForRace(b, raceId)
    decreases |a|
  {
    if a != [] {
      assert (a + b)[0] == a[0] && (a + b)[1..] == a[1..] + b;
      ForRaceAppend(a[1..], b, raceId);
    } else {
      assert a + b == b;
    }
  }

  /** A testimonial for another race never appears, and every testimonial
      for this race appears as often as in the list. */
  lemma {:induction false} ForRaceCounts(testimonials: seq<Testimonial>, raceId: string, t: Testimonial)
    ensures multiset(ForRace(testimonials, raceId))[t] ==
            if t.raceId == Some(raceId) then multiset(testimonials)[t] else 0
    decreases |testimonials|
  {
    if testimonials != [] {
      assert testimonials == [testimonials[0]] + testimonials[1..];
      ForRaceCounts(testimonials[1..], raceId, t);
    }
  }

  /** What the best-effort testimonial fetch leaves in `testimonials`: the
      parsed list, or the empty list on any failure. */
  function TestimonialsOrEmpty(response: Fetch<Testimonial>): (r: seq<Testimonial>)
    ensures response.Ok? ==> r == response.items
    ensures !response.Ok? ==> r == []
  {
    if response.Ok? then response.items else []
  }

  /** The detail fields written for a found race. */
  function PopulatedFields(r: Race): (f: DetailFields)
    ensures var title := if r.title.Some? then r.title.value else "Race Details";
            f.titleHero == title &&
            f.pageTitle == title + " | Burnt Hare Events" &&
            f.mapAlt == title + " Course Map" &&
            f.entryText == "ENTER " + Upper(title)
    ensures f.dateHero == "Date: " + (if r.dateDisplay.Some? then r.dateDisplay.value else "TBC")
    ensures f.heroBackground == "url('" + (if r.promoImage.Some? then r.promoImage.value else "") + "')"
    ensures f.description == (if r.description.Some? then r.description.value else "A full description is coming soon.")
    ensures f.mapSrc == (if r.courseMap.Some? then r.courseMap.value else "#")
    ensures f.sidebarDistance == (if r.distance.Some? then r.distance.value else "Distance TBC")
    ensures f.sidebarDate == (if r.dateDisplay.Some? then r.dateDisplay.value else "Date TBC")
    ensures f.sidebarCost == (if r.cost.Some? then r.cost.value else "Price TBC")
    ensures f.entryHref == (if r.bookingLink.Some? then r.bookingLink.value else "#")
  {
    var title := OrElse(r.title, "Race Details");
    DetailFields(
      title + " | Burnt Hare Events",
      title,
      "Date: " + OrElse(r.dateDisplay, "TBC"),
      "url('" + OrElse(r.promoImage, "") + "')",
      OrElse(r.description, "A full description is coming soon."),
      OrElse(r.courseMap, "#"),
      title + " Course Map",
      OrElse(r.distance, "Distance TBC"),
      OrElse(r.dateDisplay, "Date TBC"),
      OrElse(r.cost, "Price TBC"),
      OrElse(r.bookingLink, "#"),
      "ENTER " + Upper(title))
  }

  function CardFor(t: Testimonial): (c: TestimonialNode)
    ensures c == TestimonialCard(if t.quote.Some? then t.quote.value else "Feedback missing.",
                                 if t.author.Some? then t.author.value else "Anonymous")
  {
    TestimonialCard(OrElse(t.quote, "Feedback missing."), OrElse(t.author, "Anonymous"))
  }

  /** The testimonial container's children after rendering, given the list,
      whether the container exists and its prior children: matching cards
      appended, or the placeholder alone, or nothing changed. */
  function TestimonialSection(testimonials: seq<Testimonial>, raceId: string,
                              hasContainer: bool, prior: seq<TestimonialNode>): (r: seq<TestimonialNode>)
    ensures hasContainer && ForRace(testimonials, raceId) != [] ==>
              |r| == |prior| + |ForRace(testimonials, raceId)| &&
              r[..|prior|] == prior && r[|prior|..] == MapSeq(CardFor, ForRace(testimonials, raceId))
    ensures hasContainer && ForRace(testimonials, raceId) == [] ==> r == [ReviewPlaceholder]
    ensures !hasContainer ==> r == prior
  {
    var relevant := ForRace(testimonials, raceId);
    if |relevant| > 0 && hasContainer then
      var cards := MapSeq(CardFor, relevant);
      assert (prior + cards)[..|prior|] == prior && (prior + cards)[|prior|..] == cards;
      prior + cards
    else if hasContainer then [ReviewPlaceholder]
    else prior
  }

  class RacePage {
    var pageTitle: string
    var titleHero: string
    var dateHero: string
    var heroBackground: string
    var description: string
    var mapSrc: string
    var mapAlt: string
    var sidebarDistance: string
    var sidebarDate: string
    var sidebarCost: string
    var entryHref: string
    var entryText: string
    /** Whether the page has a `testimonials-container`. */
    const hasTestimonials: bool
    /** Its children. */
    var testimonials: seq<TestimonialNode>

    function Fields(): DetailFields
      reads this
    {
      DetailFields(pageTitle, titleHero, dateHero, heroBackground, description, mapSrc, mapAlt,
                   sidebarDistance, sidebarDate, sidebarCost, entryHref, entryText)
    }

    constructor (fields: DetailFields, hasTestimonials: bool, testimonials: seq<TestimonialNode>)
      ensures Fields() == fields
      ensures this.hasTestimonials == hasTestimonials && this.testimonials == testimonials
    {
      pageTitle, titleHero, dateHero, heroBackground := fields.pageTitle, fields.titleHero, fields.dateHero, fields.heroBackground;
      description, mapSrc, mapAlt := fields.description, fields.mapSrc, fields.mapAlt;
      sidebarDistance, sidebarDate, sidebarCost := fields.sidebarDistance, fields.sidebarDate, fields.sidebarCost;
      entryHref, entryText := fields.entryHref, fields.entryText;
      this.hasTestimonials, this.testimonials := hasTestimonials, testimonials;
    }

    /** The page script after the theme set-up. `raceId` is the page's
        `data-race-id` attribute; the two fetch outcomes are what the race
        and testimonial requests would deliver, and `requested` lists the
        requests actually made, in order. */
    method Start(raceId: Option<string>, races: Fetch<Race>, testimonialList: Fetch<Testimonial>)
      returns (requested: seq<string>)
      modifies this
      ensures raceId.None? || raceId.value == "" ==>
                requested == [] && Fields() == old(Fields()) && testimonials == old(testimonials)
      ensures raceId.Some? && raceId.value != "" ==>
                Outcome(raceId.value, races, testimonialList, old(Fields()), hasTestimonials, old(testimonials)) ==
                (requested, Fields(), testimonials)
    {
      if raceId.None? || raceId.value == "" {
        return [];
      }
      requested := LoadRaceData(raceId.value, races, testimonialList);
    }

    /** `loadRaceData`. */
    method LoadRaceData(raceId: string, races: Fetch<Race>, testimonialList: Fetch<Testimonial>)
      returns (requested: seq<string>)
      modifies this
      ensures Outcome(raceId, races, testimonialList, old(Fields()), hasTestimonials, old(testimonials)) ==
              (requested, Fields(), testimonials)
    {
      requested := [RacesUrl];
      if !races.Ok? {
        titleHero := CriticalTitle;
        description := CriticalDescription;
        return;
      }
      var raceData := FindRace(races.items, raceId);
      if raceData.None? {
        titleHero := "Race ID: " + raceId + " Not Found";
        return;
      }
      requested := [RacesUrl, TestimonialsUrl];
      var list: seq<Testimonial> := [];
      if testimonialList.Ok? {
        list := testimonialList.items;
      }
      Populate(PopulatedFields(raceData.value));
      RenderTestimonials(list, raceId);
      assert list == TestimonialsOrEmpty(testimonialList);
    }

    /** The testimonial step: cards for the matching testimonials appended
        when there are any, otherwise the placeholder in place of the
        container's children. */
    method RenderTestimonials(list: seq<Testimonial>, raceId: string)
      modifies this`testimonials
      ensures testimonials == TestimonialSection(list, raceId, hasTestimonials, old(testimonials))
    {
      var relevant := ForRace(list, raceId);
      if |relevant| > 0 && hasTestimonials {
        AppendCards(relevant);
      } else if hasTestimonials {
        testimonials := [ReviewPlaceholder];
      }
    }

    /** The field writes for a found race, given the values to write. */
    method Populate(f: DetailFields)
      modifies this`pageTitle, this`titleHero, this`dateHero, this`heroBackground, this`description,
               this`mapSrc, this`mapAlt, this`sidebarDistance, this`sidebarDate, this`sidebarCost,
               this`entryHref, this`entryText
      ensures Fields() == f
    {
      PopulateHero(f);
      PopulateSidebar(f);
    }

    /** The title, hero, description and course map writes. */
    method PopulateHero(f: DetailFields)
      modifies this`pageTitle, this`titleHero, this`dateHero, this`heroBackground, this`description,
               this`mapSrc, this`mapAlt
      ensures pageTitle == f.pageTitle && titleHero == f.titleHero && dateHero == f.dateHero
      ensures heroBackground == f.heroBackground && description == f.description
      ensures mapSrc == f.mapSrc && mapAlt == f.mapAlt
    {
      pageTitle, titleHero, dateHero, heroBackground := f.pageTitle, f.titleHero, f.dateHero, f.heroBackground;
      description, mapSrc, mapAlt := f.description, f.mapSrc, f.mapAlt;
    }

    /** The sidebar and entry-button writes. */
    method PopulateSidebar(f: DetailFields)
      modifies this`sidebarDistance, this`sidebarDate, this`sidebarCost, this`entryHref, this`entryText
      ensures sidebarDistance == f.sidebarDistance && sidebarDate == f.sidebarDate && sidebarCost == f.sidebarCost
      ensures entryHref == f.entryHref && entryText == f.entryText
    {
      sidebarDistance, sidebarDate, sidebarCost := f.sidebarDistance, f.sidebarDate, f.sidebarCost;
      entryHref, entryText := f.entryHref, f.entryText;
    }

    /** The `forEach` over the matching testimonials: one card each, appended
        after the container's existing children. */
    method AppendCards(relevant: seq<Testimonial>)
      modifies this`testimonials
      ensures testimonials == old(testimonials) + MapSeq(CardFor, relevant)
    {
      var i := 0;
      while i < |relevant|
        invariant 0 <= i <= |relevant|
        invariant testimonials == old(testimonials) + MapSeq(CardFor, relevant[..i])
      {
        MapSeqSnoc(CardFor, relevant, i);
        testimonials := testimonials + [CardFor(relevant[i])];
        i := i + 1;
      }
      assert relevant[..i] == relevant;
    }
  }

  /** What `loadRaceData` does, as a function of its inputs and of the page
      before it: the requests made, the detail fields and the testimonial
      container afterwards. */
  function Outcome(raceId: string, races: Fetch<Race>, testimonialList: Fetch<Testimonial>,
                   fields: DetailFields, hasContainer: bool, container: seq<TestimonialNode>)
    : (r: (seq<string>, DetailFields, seq<TestimonialNode>))
    ensures r.0 == (if races.Ok? && FindRace(races.items, raceId).Some? then [RacesUrl, TestimonialsUrl] else [RacesUrl])
    ensures !(races.Ok? && FindRace(races.items, raceId).Some?) ==> r.2 == container
    ensures races.Ok? && FindRace(races.items, raceId).Some? ==> r.1 == PopulatedFields(FindRace(races.items, raceId).value)
  {
    if !races.Ok? then
      ([RacesUrl], fields.(titleHero := CriticalTitle, description := CriticalDescription), container)
    else
      match FindRace(races.items, raceId)
      case None => ([RacesUrl], fields.(titleHero := "Race ID: " + raceId + " Not Found"), container)
      case Some(r) =>
        ([RacesUrl, TestimonialsUrl], PopulatedFields(r),
         TestimonialSection(TestimonialsOrEmpty(testimonialList), raceId, hasContainer, container))
  }

  /** A failed race fetch reaches the critical-error handler: only the title
      and description change, and no testimonials are requested. */
  lemma {:induction false} PrimaryFailureIsCritical(raceId: string, races: Fetch<Race>, testimonialList: Fetch<Testimonial>,
                                                    fields: DetailFields, hasContainer: bool, container: seq<TestimonialNode>)
    requires !races.Ok?
    ensures var (requested, after, children) := Outcome(raceId, races, testimonialList, fields, hasContainer, container);
            requested == [RacesUrl] && children == container &&
            after.titleHero == CriticalTitle && after.description == CriticalDescription &&
            after.pageTitle == fields.pageTitle && after.dateHero == fields.dateHero &&
            after.heroBackground == fields.heroBackground && after.mapSrc == fields.mapSrc &&
            after.mapAlt == fields.mapAlt && after.sidebarDistance == fields.sidebarDistance &&
            after.sidebarDate == fields.sidebarDate && after.sidebarCost == fields.sidebarCost &&
            after.entryHref == fields.entryHref && after.entryText == fields.entryText
  {
  }

  /** An id that no race carries changes only the hero title, and no
      testimonials are requested. */
  lemma {:induction false} MissingRaceChangesOnlyTitle(raceId: string, races: Fetch<Race>, testimonialList: Fetch<Testimonial>,
                                                       fields: DetailFields, hasContainer: bool, container: seq<TestimonialNode>)
    requires races.Ok? && forall i :: 0 <= i < |races.items| ==> races.items[i].id != Some(raceId)
    ensures var (requested, after, children) := Outcome(raceId, races, testimonialList, fields, hasContainer, container);
            requested == [RacesUrl] && children == container &&
            after.titleHero == "Race ID: " + raceId + " Not Found" &&
            after.pageTitle == fields.pageTitle && after.dateHero == fields.dateHero &&
            after.heroBackground == fields.heroBackground && after.description == fields.description &&
            after.mapSrc == fields.mapSrc && after.mapAlt == fields.mapAlt &&
            after.sidebarDistance == fields.sidebarDistance && after.sidebarDate == fields.sidebarDate &&
            after.sidebarCost == fields.sidebarCost && after.entryHref == fields.entryHref &&
            after.entryText == fields.entryText
  {
  }

  /** A failed testimonial fetch is not critical: the race is still written
      in full and the container shows the review placeholder. */
  lemma {:induction false} TestimonialFailureDegrades(raceId: string, races: Fetch<Race>, testimonialList: Fetch<Testimonial>,
                                                      fields: DetailFields, hasContainer: bool, container: seq<TestimonialNode>)
    requires races.Ok? && FindRace(races.items, raceId).Some? && !testimonialList.Ok?
    ensures Outcome(raceId, races, testimonialList, fields, hasContainer, container) ==
            ([RacesUrl, TestimonialsUrl], PopulatedFields(FindRace(races.items, raceId).value),
             if hasContainer then [ReviewPlaceholder] else container)
  {
  }

  /** For a found race, the cards appended after the container's children
      are those of the testimonials carrying the page's race id, in list
      order; with none, the placeholder replaces the children. */
  lemma {:induction false} RenderedTestimonialsMatch(raceId: string, races: Fetch<Race>, testimonials: seq<Testimonial>,
                                                     fields: DetailFields, container: seq<TestimonialNode>)
    requires races.Ok? && FindRace(races.items, raceId).Some?
    ensures var children := Outcome(raceId, races, Ok(testimonials), fields, true, container).2;
            var relevant := ForRace(testimonials, raceId);
            (relevant != [] ==> children == container + MapSeq(CardFor, relevant)) &&
            (relevant == [] ==> children == [ReviewPlaceholder])
  {
    var children := Outcome(raceId, races, Ok(testimonials), fields, true, container).2;
    var relevant := ForRace(testimonials, raceId);
    if relevant != [] {
      assert children == children[..|container|] + children[|container|..];
    }
  }
}
