/** The home page: the navigation dropdown, the "next race" hero banner and the
    grid of race cards, all built from one fetch of `races.json`. */
module Home {
  import opened Wrappers
  import opened PageData
  import opened Sorting

  /** One `<li><a href=…>…</a></li>` of the dropdown. */
  datatype MenuEntry = MenuEntry(href: string, text: string)

  /** A child of the `races-grid` container. `Message` stands for the
      template's own content and for the load-error paragraph. */
  datatype GridNode =
    | RaceCard(distance: string, title: string, date: string, subtitle: string, href: string, cta: string)
    | Message(text: string)

  /** The content of `hero-banner`. `Markup` is the template's own content;
      `NextUp` is the banner for a selected race, whose first line reads
      `NEXT UP: {title} - {date}` above a fixed heading;
      `Static` is a fixed heading, paragraph and button. */
  datatype Banner =
    | Markup(html: string)
    | NextUp(title: string, date: string, subtitle: string, href: string, cta: string)
    | Static(heading: string, text: string, href: string, button: string)

  const FallbackBanner := Static(
    "Challenge Your Limits",
    "Registration for our next season of events opens soon! Check the grid below for details.",
    "/support", "Stay Updated")

  const LoadErrorBanner := Static(
    "Data Load Error",
    "We are experiencing issues loading our event schedule.",
    "/support", "Contact Support")

  const GridLoadError := Message(
    "Could not load race events. Please check the **data/races.json** file content for syntax errors or check the browser console for details.")

  /** The comparator `new Date(a.date) - new Date(b.date)`: ascending date. */
  function DateKey(r: Race): int { r.date }

  function MenuEntryFor(r: Race): (e: MenuEntry)
    ensures e.href == (if r.link.Some? then r.link.value else "#races")
    ensures e.text == (if r.title.Some? then r.title.value else "Unknown Race")
  {
    MenuEntry(OrElse(r.link, "#races"), OrElse(r.title, "Unknown Race"))
  }

  function RaceCardFor(r: Race): (c: GridNode)
    ensures c.RaceCard?
    ensures c.distance == (if r.distance.Some? then r.distance.value else "")
    ensures c.title == (if r.title.Some? then r.title.value else "Event Title Missing")
    ensures c.date == (if r.dateDisplay.Some? then r.dateDisplay.value else "Date TBC")
    ensures c.subtitle == (if r.subtitle.Some? then r.subtitle.value else "A great event.")
    ensures c.href == (if r.link.Some? then r.link.value else "#races")
    ensures c.cta == (if r.cta.Some? then r.cta.value else "View Details")
  {
    RaceCard(OrElse(r.distance, ""), OrElse(r.title, "Event Title Missing"),
             OrElse(r.dateDisplay, "Date TBC"), OrElse(r.subtitle, "A great event."),
             OrElse(r.link, "#races"), OrElse(r.cta, "View Details"))
  }

  /** The banner for a selected race; title and call to action are upper-cased
      only when present (`title?.toUpperCase() ?? …`). */
  function HeroFor(r: Race): (b: Banner)
    ensures b.NextUp?
    ensures b.title == (if r.title.Some? then Upper(r.title.value) else "NEXT RACE")
    ensures b.date == (if r.dateDisplay.Some? then r.dateDisplay.value else "DATE TBC")
    ensures b.subtitle == (if r.subtitle.Some? then r.subtitle.value else "Join us for the next ultimate challenge.")
    ensures b.href == (if r.link.Some? then r.link.value else "#races")
    ensures b.cta == (if r.cta.Some? then Upper(r.cta.value) else "REGISTER NOW")
  {
    NextUp(
      if r.title.Some? then Upper(r.title.value) else "NEXT RACE",
      OrElse(r.dateDisplay, "DATE TBC"),
      OrElse(r.subtitle, "Join us for the next ultimate challenge."),
      OrElse(r.link, "#races"),
      if r.cta.Some? then Upper(r.cta.value) else "REGISTER NOW")
  }

  /** The first line of a `NextUp` banner. */
  function NextUpLine(b: Banner): string
    requires b.NextUp?
  {
    "NEXT UP: " + b.title + " - " + b.date
  }

  /** `sortedRaces.find(race => new Date(race.date) > now)`. */
  function FindFirstAfter(s: seq<Race>, now: int): (r: Option<Race>)
    ensures r.None? <==> forall i :: 0 <= i < |s| ==> s[i].date <= now
    ensures r.Some? ==> exists k :: 0 <= k < |s| && s[k] == r.value && s[k].date > now &&
                                    forall j :: 0 <= j < k ==> s[j].date <= now
    decreases |s|
  {
    if s == [] then None
    else if s[0].date > now then
      Some(s[0])
    else
      var r := FindFirstAfter(s[1..], now);
      assert forall i :: 1 <= i < |s| ==> s[i] == s[1..][i - 1];
      if r.Some? then
        var k :| 0 <= k < |s[1..]| && s[1..][k] == r.value && s[1..][k].date > now &&
                 forall j :: 0 <= j < k ==> s[1..][j].date <= now;
        assert s[k + 1] == r.value;
        r
      else
        r
  }

  /** The race the hero banner advertises: the first race after `now` once the
      list is stably sorted by ascending date. */
  function NextRace(races: seq<Race>, now: int): (r: Option<Race>)
    ensures r.Some? ==> r.value in races && r.value.date > now
  {
    var t := SortBy(races, DateKey);
    var r := FindFirstAfter(t, now);
    assert r.Some? ==> r.value in multiset(t);
    r
  }

  /** No next race exactly when no race lies after `now` (which covers an
      empty list). */
  lemma {:induction false} NoNextRace(races: seq<Race>, now: int)
    ensures NextRace(races, now).None? <==> forall i :: 0 <= i < |races| ==> races[i].date <= now
  {
    var t := SortBy(races, DateKey);
    if NextRace(races, now).None? {
      forall i | 0 <= i < |races| ensures races[i].date <= now {
        assert races[i] in multiset(t);
      }
    } else {
      var k :| 0 <= k < |t| && t[k].date > now;
      assert t[k] in multiset(races);
    }
  }

  /** The next race lies after `now`, and no race lies after `now` but
      before it. */
  lemma {:induction false} NextRaceIsSoonest(races: seq<Race>, now: int)
    requires NextRace(races, now).Some?
    ensures NextRace(races, now).value.date > now
    ensures forall i :: 0 <= i < |races| && races[i].date > now ==> races[i].date >= NextRace(races, now).value.date
  {
    var t := SortBy(races, DateKey);
    FirstAfterIsSoonest(t, now);
    forall i | 0 <= i < |races| && races[i].date > now ensures races[i].date >= NextRace(races, now).value.date {
      assert races[i] in multiset(races);
      assert races[i] in t;
      var m :| 0 <= m < |t| && t[m] == races[i];
    }
  }

  /** In a date-sorted list, `find` returns a race no later than any other
      race after `now`. */
  lemma {:induction false} FirstAfterIsSoonest(t: seq<Race>, now: int)
    requires SortedBy(t, DateKey) && FindFirstAfter(t, now).Some?
    ensures forall m :: 0 <= m < |t| && t[m].date > now ==> t[m].date >= FindFirstAfter(t, now).value.date
  {
    var next := FindFirstAfter(t, now).value;
    var k :| 0 <= k < |t| && t[k] == next && t[k].date > now &&
             forall j :: 0 <= j < k ==> t[j].date <= now;
    forall m | 0 <= m < |t| && t[m].date > now ensures t[m].date >= next.date {
      assert k <= m;
      assert DateKey(t[k]) <= DateKey(t[m]);
    }
  }

  /** Among the races on the next race's date, the next race is the first one
      in the order of `races.json`: the sort is stable. */
  lemma {:induction false} NextRaceIsFirstOnItsDate(races: seq<Race>, now: int)
    requires NextRace(races, now).Some?
    ensures exists i :: 0 <= i < |races| && races[i] == NextRace(races, now).value &&
                        forall j :: 0 <= j < i ==> races[j].date != NextRace(races, now).value.date
  {
    var t := SortBy(races, DateKey);
    var next := NextRace(races, now).value;
    var d := next.date;
    FirstAfterHeadsFilter(t, now);
    SortByStable(races, DateKey, d);
    KeyFilterHead(races, DateKey, d);
  }

  /** The grid lists every race exactly as often as the file does, by
      non-decreasing date. */
  lemma {:induction false} GridIsChronological(races: seq<Race>)
    ensures multiset(SortBy(races, DateKey)) == multiset(races)
    ensures forall i, j :: 0 <= i < j < |races| ==>
              SortBy(races, DateKey)[i].date <= SortBy(races, DateKey)[j].date
  {
    var s := SortBy(races, DateKey);
    forall i, j | 0 <= i < j < |races| ensures s[i].date <= s[j].date {
      assert DateKey(s[i]) <= DateKey(s[j]);
    }
  }

  /** The race `find` returns heads the list of races on its own date. */
  lemma {:induction false} FirstAfterHeadsFilter(t: seq<Race>, now: int)
    requires FindFirstAfter(t, now).Some?
    ensures KeyFilter(t, DateKey, FindFirstAfter(t, now).value.date) != []
    ensures KeyFilter(t, DateKey, FindFirstAfter(t, now).value.date)[0] == FindFirstAfter(t, now).value
  {
    var next := FindFirstAfter(t, now).value;
    var d := next.date;
    var k :| 0 <= k < |t| && t[k] == next && t[k].date > now &&
             forall j :: 0 <= j < k ==> t[j].date <= now;
    KeyFilterEmpty(t, DateKey, d);
    KeyFilterHead(t, DateKey, d);
    var h :| 0 <= h < |t| && t[h] == KeyFilter(t, DateKey, d)[0] && DateKey(t[h]) == d &&
             forall j :: 0 <= j < h ==> DateKey(t[j]) != d;
    assert DateKey(t[k]) == d && DateKey(t[h]) > now;
  }

  /** The hero step of the page as a function of the selected race, which
      hero containers exist, and the banner and background before it: the
      banner content and section background afterwards. */
  function HeroOutcome(next: Option<Race>, hasBanner: bool, hasSection: bool,
                       banner: Banner, background: string): (r: (Banner, string))
    ensures next.Some? && hasBanner && hasSection ==>
              r.0 == HeroFor(next.value) &&
              r.1 == (if next.value.promoImage.Some? && next.value.promoImage.value != ""
                      then "url('" + next.value.promoImage.value + "')" else background)
    ensures !(next.Some? && hasSection) && hasBanner ==> r == (FallbackBanner, if hasSection then "none" else background)
    ensures !hasBanner ==> r == (banner, background)
  {
    if next.Some? && hasBanner && hasSection then
      var promo := OrElse(next.value.promoImage, "");
      (HeroFor(next.value), if promo != "" then "url('" + promo + "')" else background)
    else if hasBanner then
      (FallbackBanner, if hasSection then "none" else background)
    else
      (banner, background)
  }

  class HomePage {
    /** Which of the guarded containers the page has. */
    const hasDropdown: bool
    const hasGrid: bool
    const hasBanner: bool
    const hasSection: bool

    /** Children of `races-dropdown`. */
    var dropdown: seq<MenuEntry>
    /** Children of `races-grid`. */
    var grid: seq<GridNode>
    /** Content of `hero-banner`. */
    var banner: Banner
    /** `style.backgroundImage` of `hero-section`. */
    var background: string

    constructor (hasDropdown: bool, hasGrid: bool, hasBanner: bool, hasSection: bool,
                 dropdown: seq<MenuEntry>, grid: seq<GridNode>, banner: Banner, background: string)
      ensures this.hasDropdown == hasDropdown && this.hasGrid == hasGrid
      ensures this.hasBanner == hasBanner && this.hasSection == hasSection
      ensures this.dropdown == dropdown && this.grid == grid
      ensures this.banner == banner && this.background == background
    {
      this.hasDropdown, this.hasGrid, this.hasBanner, this.hasSection := hasDropdown, hasGrid, hasBanner, hasSection;
      this.dropdown, this.grid, this.banner, this.background := dropdown, grid, banner, background;
    }

    /** `renderDropdownMenu`: appends one entry per race, in array order,
        after whatever the menu already holds. */
    method RenderDropdownMenu(races: array<Race>)
      modifies this`dropdown
      ensures dropdown == if hasDropdown then old(dropdown) + MapSeq(MenuEntryFor, races[..]) else old(dropdown)
    {
      if !hasDropdown {
        return;
      }
      var i := 0;
      while i < races.Length
        invariant 0 <= i <= races.Length
        invariant dropdown == old(dropdown) + MapSeq(MenuEntryFor, races[..i])
      {
        MapSeqSnoc(MenuEntryFor, races[..], i);
        dropdown := dropdown + [MenuEntryFor(races[i])];
        i := i + 1;
      }
      assert races[..i] == races[..];
    }

    /** `renderRaceCards`: clears the grid, then appends one card per race in
        array order. */
    method RenderRaceCards(races: array<Race>)
      modifies this`grid
      ensures grid == if hasGrid then MapSeq(RaceCardFor, races[..]) else old(grid)
    {
      if !hasGrid {
        return;
      }
      grid := [];
      var i := 0;
      while i < races.Length
        invariant 0 <= i <= races.Length
        invariant grid == MapSeq(RaceCardFor, races[..i])
      {
        MapSeqSnoc(RaceCardFor, races[..], i);
        grid := grid + [RaceCardFor(races[i])];
        i := i + 1;
      }
      assert races[..i] == races[..];
    }

    /** The hero step: the selected race's banner when there is one and both
        hero containers exist, otherwise the fallback banner, which also
        clears the section background. */
    method RenderHero(next: Option<Race>)
      modifies this`banner, this`background
      ensures (banner, background) == HeroOutcome(next, hasBanner, hasSection, old(banner), old(background))
    {
      if next.Some? && hasBanner && hasSection {
        var promo := OrElse(next.value.promoImage, "");
        if promo != "" {
          background := "url('" + promo + "')";
        }
        banner := HeroFor(next.value);
      } else if hasBanner {
        banner := FallbackBanner;
        if hasSection {
          background := "none";
        }
      }
    }

    /** The `.catch` handler. */
    method ShowLoadError()
      modifies this`grid, this`banner
      ensures grid == if hasGrid then [GridLoadError] else old(grid)
      ensures banner == if hasBanner then LoadErrorBanner else old(banner)
    {
      if hasGrid {
        grid := [GridLoadError];
      }
      if hasBanner {
        banner := LoadErrorBanner;
      }
    }

    /** The success callback of the fetch, given the parsed array and the
        clock reading. The dropdown is built from the array before
        `races.sort` reorders it in place; the grid is built from the same
        array afterwards, so it lists the races by ascending date. */
    method RenderRaces(races: array<Race>, now: int)
      modifies this, races
      ensures races[..] == SortBy(old(races[..]), DateKey)
      ensures dropdown == if hasDropdown then old(dropdown) + MapSeq(MenuEntryFor, old(races[..])) else old(dropdown)
      ensures grid == if hasGrid then MapSeq(RaceCardFor, races[..]) else old(grid)
      ensures (banner, background) == HeroOutcome(NextRace(old(races[..]), now), hasBanner, hasSection, old(banner), old(background))
    {
      RenderDropdownMenu(races);
      InsertionSort(races, DateKey);
      var next := FindFirstAfter(races[..], now);
      RenderHero(next);
      RenderRaceCards(races);
    }

    /** The page script after the theme set-up, given the outcome of the
        fetch and the clock reading. */
    method Load(response: Fetch<Race>, now: int)
      modifies this
      ensures response.Ok? ==>
                dropdown == (if hasDropdown then old(dropdown) + MapSeq(MenuEntryFor, response.items) else old(dropdown)) &&
                grid == (if hasGrid then MapSeq(RaceCardFor, SortBy(response.items, DateKey)) else old(grid)) &&
                (banner, background) == HeroOutcome(NextRace(response.items, now), hasBanner, hasSection, old(banner), old(background))
      ensures !response.Ok? ==>
                dropdown == old(dropdown) && background == old(background) &&
                grid == (if hasGrid then [GridLoadError] else old(grid)) &&
                banner == (if hasBanner then LoadErrorBanner else old(banner))
    {
      if !response.Ok? {
        ShowLoadError();
        return;
      }
      var items := response.items;
      var races := new Race[|items|](i requires 0 <= i < |items| => items[i]);
      assert races[..] == items;
      RenderRaces(races, now);
    }
  }

  /** A sample `races.json` entry with id `r1`, dated 2099-01-01;
      4070908800000 is that day in milliseconds since the epoch. */
  const FunRun := Race(Some("r1"), Some("5K Fun Run"), None, None, Some("1 Jan 2099"), 4070908800000,
                       None, None, None, None, None, None, None)

  /** A page listing only that race, loaded before 2099, advertises it and
      shows one card titled `5K Fun Run`. */
  lemma {:induction false} FunRunIsNext(now: int)
    requires now < FunRun.date
    ensures NextRace([FunRun], now) == Some(FunRun)
    ensures MapSeq(RaceCardFor, SortBy([FunRun], DateKey)) == [RaceCardFor(FunRun)]
    ensures RaceCardFor(FunRun).title == "5K Fun Run"
  {
    assert SortBy([FunRun], DateKey) == [FunRun];
  }

  /** The banner's capitalised title. */
  lemma {:induction false} FunRunTitleUpper()
    ensures Upper("5K Fun Run") == "5K FUN RUN"
  {
    var t := Upper("5K Fun Run");
    assert t[0] == '5' && t[1] == 'K' && t[2] == ' ' && t[3] == 'F' && t[4] == 'U';
    assert t[5] == 'N' && t[6] == ' ' && t[7] == 'R' && t[8] == 'U' && t[9] == 'N';
  }

  /** Its banner reads `NEXT UP: 5K FUN RUN - 1 Jan 2099`. */
  lemma {:induction false} FunRunBanner()
    ensures NextUpLine(HeroFor(FunRun)) == "NEXT UP: 5K FUN RUN - 1 Jan 2099"
  {
    FunRunTitleUpper();
    var b := HeroFor(FunRun);
    assert b.title == "5K FUN RUN" && b.date == "1 Jan 2099";
    assert "NEXT UP: " + "5K FUN RUN" + " - " + "1 Jan 2099" == "NEXT UP: 5K FUN RUN - 1 Jan 2099";
  }
}
