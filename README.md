# Burnt Hare Events page scripts, modelled in Dafny

The Burnt Hare Events site runs three browser scripts:

- the home page (`assets/js/script.js`) has a theme toggle, a navigation dropdown of races, a "next race" hero banner and a grid of race cards;
- each race detail page (`assets/js/race-script.js`) has the same theme toggle, the race looked up by the page's `data-race-id`, and that race's testimonials;
- the results archive (`assets/js/results-script.js`) shows one card per past result, newest first.

This project models each script as a Dafny class. The class fields are the page elements the script writes. Each method is one step of the script. Its contract states the new page state, either directly or as a specification function of the inputs and the old state. Lemmas then prove the properties the scripts promise.

Modules:

- `Wrappers`: `Option`.
- `PageData`:
  - the JSON records `Race`, `Testimonial` and `ArchiveEntry`, with every property optional except the timestamp `date`;
  - the fetch outcome `Fetch = Ok(items) | HttpError(status) | NetworkError`;
  - JavaScript `??` (`OrElse`), which replaces only an absent value and keeps an empty string;
  - ASCII upper-casing;
  - `MapSeq`, for a `forEach` that appends one node per item.
- `Sorting`:
  - `Array.prototype.sort` with a numeric-difference comparator, modelled as a stable in-place insertion sort on an `array` (`InsertionSort`);
  - the method is proved equal to the specification function `SortBy`;
  - `SortBy` is proved to be a sorted permutation that keeps equal keys in their original order (`SortByStable`);
  - a descending comparator `b - a` is ascending order on the negated key.
- `Theme`: the `data-theme` attribute, the stored preference and the toggle's text, with the click handler. Both `script.js` and `race-script.js` contain this code.
- `Home`:
  - the dropdown is built from the fetched array before `races.sort` reorders that array in place;
  - the next race is found with `find` on the sorted array;
  - the hero banner or the fallback banner is rendered;
  - the grid is rendered from the same, now sorted, array;
  - a failure takes the catch path.

  `HomePage.RenderRaces` keeps the aliasing: one `array` is passed to all three steps. So the dropdown follows file order and the grid follows date order.
- `RaceDetail`:
  - the race-id guard;
  - the first-match lookup;
  - the testimonial fetch, which is best-effort: a failure degrades to an empty list;
  - the field population with its fixed fallbacks;
  - the exact-match testimonial filter and the cards or the review placeholder;
  - the critical path, taken only when the primary fetch fails.

  `Outcome` states the whole of `loadRaceData` as a function. `RacePage.LoadRaceData` is proved to match it.
- `Results`:
  - the empty-archive placeholder;
  - the in-place newest-first sort;
  - one card per entry;
  - the error paragraph.

The inputs are all parameters: the wall clock (`now`, in milliseconds), `matchMedia('(prefers-color-scheme: light)')` (a `bool`), `localStorage` (an `Option<string>` field), the fetch outcomes, and which guarded containers the page has. A page the script finds without such a container keeps that part of its state.

The code does some things its comments do not say. The model follows the code in each case:

- The home page shows the fallback banner when a next race exists but `hero-section` is missing. The condition in `script.js:78` requires all three of the race, the banner and the section. The comment at `script.js:101` mentions only the missing race.
- The background is set to `none` only on that fallback path and only when the section exists.
- On the results page, an empty archive on a page without `results-list-grid` makes the placeholder write throw. The catch handler then finds no grid either, so the page does not change.

## Model

| member | source | states |
|---|---|---|
| Theme.InitialTheme | assets/js/script.js:5 | The stored theme wins when it is present and non-empty. Otherwise `light` if the system prefers light, else `dark`. The result is never empty. |
| Theme.LabelFor | assets/js/script.js:8 | The button reads `💡 Light Mode` exactly when the theme is `dark`, and `🌙 Dark Mode` exactly when it is not. |
| Theme.Flip | assets/js/script.js:11-12 | A click yields `light` or `dark`. It yields `light` exactly when the current theme is `dark`, so any other value becomes `dark`. |
| Theme.LabelNamesNextTheme | assets/js/script.js:8-16 | The button text always names the theme the next click applies. |
| Theme.FlipTwice | assets/js/script.js:10-17 | Two clicks restore a `light` or `dark` theme. |
| Theme.FlipTwiceOther | assets/js/script.js:10-17 | Starting from any other attribute value, one click gives `dark` and two give `light`. |
| Theme.ReloadKeepsTheme | assets/js/script.js:5-15 | The value a click persists is the theme the next load applies, whatever the system preference. |
| Theme.ThemeToggle.constructor | assets/js/script.js:4-8 | Page load applies the initial theme and labels the button to match. Storage is not written. |
| Theme.ThemeToggle.Click | assets/js/script.js:10-17 | The attribute becomes `Flip` of its old value. Afterwards the stored value equals the attribute and the button text matches it. |
| Theme.DoubleClick | assets/js/race-script.js:4-17 | Load, then two clicks: a `light` or `dark` initial theme comes back and is the persisted value. Any result is `light` or `dark`. |
| PageData.Upper | assets/js/script.js:88 | `toUpperCase`: same length, each ASCII lower-case letter replaced by its capital, every other character kept. |
| Sorting.SortBy | assets/js/script.js:73 | The sorted sequence has the same length and multiset as the input, and its keys are non-decreasing. |
| Sorting.SortByStable | assets/js/script.js:73 | For every key, the elements with that key appear in the same relative order before and after sorting. |
| Sorting.KeyFilterHead | assets/js/script.js:73-75 | The first element with a given key under the filter is the earliest such element of the sequence. |
| Sorting.InsertLast | assets/js/results-script.js:11 | One in-place insertion step: `a[i]` moves left past the trailing elements of `a[..i]` whose key exceeds its own (all of them when `a[..i]` is sorted, as inside `InsertionSort`). Everything else keeps its place. |
| Sorting.InsertionSort | assets/js/results-script.js:11 | Sorting the array in place leaves exactly `SortBy` of its old contents. |
| Home.MenuEntryFor | assets/js/script.js:31 | A dropdown entry links to `link` or `#races` and reads `title` or `Unknown Race`. |
| Home.RaceCardFor | assets/js/script.js:44-55 | A grid card's distance, title, date, subtitle, link and call to action. Where absent, these default to `''`, `Event Title Missing`, `Date TBC`, `A great event.`, `#races` and `View Details`. |
| Home.HeroFor | assets/js/script.js:88-99 | A selected race's banner. The title is upper-cased, or `NEXT RACE`. The date defaults to `DATE TBC`, the subtitle to `Join us for the next ultimate challenge.` and the link to `#races`. The CTA is upper-cased, or `REGISTER NOW`. |
| Home.NextRace | assets/js/script.js:73-75 | The race the hero advertises: `find` on the stably date-sorted list. When there is one, it is one of the fetched races and lies after `now`. |
| Home.FindFirstAfter | assets/js/script.js:75 | `find` returns nothing exactly when no element lies after `now`. Otherwise it returns the element at the first index whose date is after `now`, and every earlier element is at or before `now`. |
| Home.NoNextRace | assets/js/script.js:73-101 | There is no next race exactly when no race, in any order, lies after `now`. This covers the empty list. |
| Home.NextRaceIsSoonest | assets/js/script.js:73-75 | The next race lies after `now`. No race lies after `now` and before it. |
| Home.FirstAfterIsSoonest | assets/js/script.js:73-75 | In a date-sorted list, the race `find` returns is no later than any other element after `now`. |
| Home.NextRaceIsFirstOnItsDate | assets/js/script.js:73-75 | Among the races of `races.json` on the next race's date, the next race is the first in file order. |
| Home.GridIsChronological | assets/js/script.js:73-114 | The grid's race order holds every fetched race exactly as often as the file does, with non-decreasing dates. |
| Home.HeroOutcome | assets/js/script.js:78-111 | With a next race and both containers: that race's banner, and a background set only when `promoImage` is non-empty. Otherwise, with a banner: the fallback banner, and background `none` only when the section exists. Without a banner: nothing changes. |
| Home.HomePage.RenderDropdownMenu | assets/js/script.js:26-34 | With a dropdown, one entry per race is appended in array order after the existing entries. Otherwise nothing changes. |
| Home.HomePage.RenderRaceCards | assets/js/script.js:37-58 | With a grid, the grid is cleared and then holds one card per race in array order. Otherwise nothing changes. |
| Home.HomePage.RenderHero | assets/js/script.js:78-111 | The banner and background become `HeroOutcome` of the selected race, the containers present and their old values. |
| Home.HomePage.ShowLoadError | assets/js/script.js:116-129 | The grid and the banner, each if present, are replaced by the fixed error content. |
| Home.HomePage.RenderRaces | assets/js/script.js:68-115 | After the callback, the array is `SortBy` of its old contents. The dropdown lists the races in old, file order. The grid lists them in the new, sorted order. The hero shows the next race of the file contents. |
| Home.HomePage.Load | assets/js/script.js:61-130 | A successful fetch gives dropdown entries in file order, grid cards in stable ascending date order, and the hero for `NextRace`. A failed fetch gives the fixed error content and leaves the dropdown and background alone. |
| Home.FunRunIsNext | assets/js/script.js:73-114 | A file with only the 2099 `5K Fun Run`, loaded before 2099, selects that race. The grid has exactly one card, titled `5K Fun Run`. |
| Home.FunRunBanner | assets/js/script.js:88-95 | That race's banner line reads `NEXT UP: 5K FUN RUN - 1 Jan 2099`. |
| RaceDetail.FindRace | assets/js/race-script.js:38 | The lookup fails exactly when no race carries the id. Otherwise it returns the race at the first index carrying the id. |
| RaceDetail.ForRace | assets/js/race-script.js:85 | A testimonial is kept exactly when it is in the list and its `race_id` equals the page id. The result is no longer than the list. |
| RaceDetail.ForRaceAppend | assets/js/race-script.js:85 | Filtering a concatenation concatenates the filtered parts, so list order is kept. |
| RaceDetail.ForRaceCounts | assets/js/race-script.js:85 | Each testimonial with the page id is kept exactly as often as it occurs in the list. Every other testimonial is dropped. |
| RaceDetail.TestimonialsOrEmpty | assets/js/race-script.js:46-56 | The testimonials are the fetched list on success, and the empty list on an HTTP or network failure. |
| RaceDetail.PopulatedFields | assets/js/race-script.js:61-82 | The title is `title` or `Race Details`. The page title is `{title} \| Burnt Hare Events`, the map alt is `{title} Course Map` and the button reads `ENTER ` plus the upper-cased title. The hero date is `Date: ` plus the display date or `TBC`. The background is always `url('…')`, with `''` when there is no image. The description, map source, sidebar distance, date and cost and entry link default to `A full description is coming soon.`, `#`, `Distance TBC`, `Date TBC`, `Price TBC` and `#`. |
| RaceDetail.CardFor | assets/js/race-script.js:92-95 | A card's quote defaults to `Feedback missing.` and its author to `Anonymous`. |
| RaceDetail.TestimonialSection | assets/js/race-script.js:85-100 | With a container and matches: the old children are kept, then one card per match. With a container and no match: only the review placeholder. Without a container: nothing changes. |
| RaceDetail.Outcome | assets/js/race-script.js:30-108 | The whole of `loadRaceData`: the requests made, the detail fields and the container after it. The testimonials file is requested exactly when the race fetch succeeds and the id is found, and only then is the container touched and the race's fields written. |
| RaceDetail.RacePage.Start | assets/js/race-script.js:20-30 | A missing or empty race id makes no request and changes no field or testimonial. Any other id gives the result of `Outcome`. |
| RaceDetail.RacePage.LoadRaceData | assets/js/race-script.js:30-108 | The requests made, the detail fields and the testimonial container afterwards equal `Outcome` of the inputs and the old page. |
| RaceDetail.RacePage.RenderTestimonials | assets/js/race-script.js:85-100 | The container becomes `TestimonialSection` of the list, the id and its old children. |
| RaceDetail.RacePage.Populate | assets/js/race-script.js:61-82 | All twelve detail fields take the given values. |
| RaceDetail.RacePage.PopulateHero | assets/js/race-script.js:62-73 | The page title, hero title, hero date, hero background, description, map source and map alt take the given values. |
| RaceDetail.RacePage.PopulateSidebar | assets/js/race-script.js:76-82 | The sidebar distance, date and cost and the entry button's link and text take the given values. |
| RaceDetail.RacePage.AppendCards | assets/js/race-script.js:89-97 | One card per matching testimonial is appended, in order, after the container's existing children. |
| RaceDetail.PrimaryFailureIsCritical | assets/js/race-script.js:33-107 | A failed race fetch requests only `races.json`. It sets the hero title and description to the critical messages and changes no other field and no testimonial. |
| RaceDetail.MissingRaceChangesOnlyTitle | assets/js/race-script.js:38-43 | An id no race carries requests only `races.json`. It changes only the hero title, to `Race ID: {id} Not Found`. |
| RaceDetail.TestimonialFailureDegrades | assets/js/race-script.js:45-56 | A failed testimonial fetch is not critical, whether or not the page has a container. Both files are requested and the race is written in full. The container, if present, shows only the review placeholder; a page without one keeps its children. |
| RaceDetail.RenderedTestimonialsMatch | assets/js/race-script.js:85-100 | For a found race, the cards appended after the old children are exactly those of the filtered testimonials, in list order. With no match, the placeholder replaces the children. |
| Results.ResultCardFor | assets/js/results-script.js:18-30 | A card's name defaults to `Unknown Event`, distance to `''`, date to `Date TBC` and link to `#`. The link always opens in `_blank` with `noopener noreferrer`. |
| Results.NewestFirstIsDescending | assets/js/results-script.js:11 | The display order has non-increasing dates. |
| Results.NewestFirstKeepsEntries | assets/js/results-script.js:11 | The display order is a permutation of the file, and entries with equal dates keep their file order. |
| Results.ResultsPage.RenderResultsLinks | assets/js/results-script.js:4-33 | With a grid, the array is sorted in place, newest first, and the grid is cleared and holds one card per entry in that order. Without a grid, neither the array nor the grid changes. |
| Results.ResultsPage.Load | assets/js/results-script.js:36-59 | A non-empty archive gives the sorted cards. An empty archive gives only the "No historical results" placeholder. A failed fetch gives the error paragraph. Each of these applies only when the grid exists. |

## Left out

- `fetch`, promises and `async`: each fetch becomes an input `Fetch` value. The race fetch comes before the testimonial fetch, and `requested` records which requests were made.
- JSON parsing and `new Date(...)`: the data arrive as records, and dates as integer timestamps. An unparsable date (NaN) makes the comparator inconsistent and is not modelled.
- The wall clock is the parameter `now`. `matchMedia` is a `bool`. `localStorage` is one optional string.
- HTML strings and `innerHTML`: cards, banners and messages are records of their field values. The lack of HTML escaping is not modelled. The banner's fixed heading and the CSS classes and inline styles are constants or are dropped.
- `console` logging has no effect on the page and is not modelled.
- `PageData.Upper`: `toUpperCase` is modelled for ASCII letters only; other characters are unchanged.
- Crashes when `getElementById` returns null for an element the scripts do not check are not modelled. Those elements are the theme toggle, `race-id-selector` and the detail-page fields, and the model assumes they exist. The checks the scripts do make are modelled as the `has…` flags.
- A `races.json`, `testimonials.json` or `results-archive.json` that parses to something other than an array is not modelled. Neither is an exception thrown part-way through rendering, after some elements were written and before the catch handler runs.
- `Sorting.InsertionSort`: the engine's own sort algorithm (for example TimSort) is replaced by insertion sort. Any stable sort of the same keys gives the same order. Equal timestamps compare as `0`.
- The toggle's `addEventListener` registration and the `DOMContentLoaded` event are not modelled. A click is a call to `Theme.ThemeToggle.Click`, and page load is the constructor followed by the `Load`/`Start` method.
