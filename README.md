# SolidGround concrete site: the logic behind the pages

This project models the small amount of behaviour inside the SolidGround
marketing front-end and proves properties of it in Dafny:

- **Full estimator** (`EstimatorForm`): the seven-page form. The price is
  square footage × base rate × complexity multiplier × timeline multiplier.
  The base rate comes from a five-entry table with a fallback of 15. The page
  counter is clamped to 0..6, and the estimate is recomputed only on a
  successful "Next" from page 2. The module also covers the progress bar, the
  displayed ±10 % range and the service-button labels. The form is a class
  with `currentStep` and `estimate` fields.
- **Quick-estimate widget** (`EstimatorWidget`): a fixed rate of 8 per square
  foot and a complexity multiplier, with no timeline. It is a class with
  `complexity` and `estimate` fields. `EstimatorVariants` states how the two
  estimators agree and where their input rules differ.
- **Shared pricing** (`Pricing`): the complexity tiers, `Math.round` and the
  displayed price range.
- **Curing countdown** (`CuringCountdown`): integer-millisecond arithmetic that
  splits the time left into days, hours and minutes. It also covers how a
  project card chooses its icon, colour and text.
- **Projects gallery** and **blog grid**: category, location and
  case-insensitive search filters over the catalogues. The blog also has a
  featured-post card, a grid of regular posts and an empty-state message.
  Both pages have a "Clear Filters" reset. The filters are built on the
  generic `Seqs.Filter` and `Seqs.Find`, which model `Array.filter` and
  `Array.find`.
- **Service catalogue** (`Services`): `getServiceBySlug` and `getAllServiceSlugs`.

Money is an exact `real`. `parseFloat` enters as an `Option<real>` argument,
where `None` stands for `NaN`. `Math.round(x)` is `floor(x + 0.5)`.

The two estimators reject different inputs. The quick widget declines zero
and negative square footage (`!sqFt || sqFt <= 0`,
src/components/widgets/EstimatorWidget.tsx:18). The full form declines only 0
and `NaN` (`if (!sqFt) return`, src/components/forms/EstimatorForm.tsx:58), so
a negative area yields a negative estimate. The model follows the code
(`EstimatorForm.Estimate`, `EstimatorVariants.RejectionRulesDiffer`).

## Model

| member | source | states |
|---|---|---|
| `Pricing.ComplexityMultiplier` | src/components/forms/EstimatorForm.tsx:68-73 | every complexity multiplier lies between 0.8 and 1.6 |
| `Pricing.MultiplierIncreasesWithRank` | src/components/widgets/EstimatorWidget.tsx:21-26 | the multiplier strictly increases along simple < standard < complex < premium, in both directions of the iff |
| `Pricing.Round` | src/components/forms/EstimatorForm.tsx:265 | `Math.round` yields the integer within half a unit of x, with halves going up |
| `Pricing.PriceRangeBrackets` | src/components/forms/EstimatorForm.tsx:265 | each end of the shown range is within ½ of 0.9·e and 1.1·e; for e ≥ 0, low ≤ round(e) ≤ high; for a negative e the range is upside down |
| `Pricing.PriceRange` | src/components/forms/EstimatorForm.tsx:265 | none of its own; `Math.round(e * 0.9)` to `Math.round(e * 1.1)`, specified by `Pricing.PriceRangeBrackets` |
| `Pricing.ShownRange` | src/components/widgets/EstimatorWidget.tsx:108-117 | none of its own; the range is rendered only for a set, nonzero estimate, specified by `EstimatorForm.ComputedEstimateIsShown` and `EstimatorWidget.ShownRangeIsOrdered` |
| `EstimatorForm.TimelineMultiplier` | src/components/forms/EstimatorForm.tsx:75-79 | every timeline multiplier lies between 0.9 and 1.2 |
| `EstimatorForm.BaseRate` | src/components/forms/EstimatorForm.tsx:60-81 | none of its own; `baseRates[serviceType] || 15`, specified by `EstimatorForm.BaseRateTable` |
| `EstimatorForm.BaseRateTable` | src/components/forms/EstimatorForm.tsx:60-81 | the five services get 12/18/20/10/8; a rate of 15 means exactly that the service type is unlisted; every rate is between 8 and 20 |
| `EstimatorForm.Estimate` | src/components/forms/EstimatorForm.tsx:56-85 | no result exactly when square footage is NaN or 0; a result is never 0 and is positive exactly when the area is positive, so negatives pass |
| `EstimatorForm.DefaultsUseBaseRateOnly` | src/components/forms/EstimatorForm.tsx:48-82 | with the default standard/standard tiers the estimate is area × base rate |
| `EstimatorForm.EstimateIncreasesWithArea` | src/components/forms/EstimatorForm.tsx:82 | with the other fields fixed, a larger area gives a strictly larger estimate |
| `EstimatorForm.Recalculated` | src/components/forms/EstimatorForm.tsx:57-84 | none of its own; the estimate state after `calculateEstimate`, specified by `EstimatorForm.RecalculatedKeepsOrReplaces` |
| `EstimatorForm.RecalculatedKeepsOrReplaces` | src/components/forms/EstimatorForm.tsx:57-84 | an area of 0 or NaN keeps the previous estimate; a negative area replaces it with a negative one, a positive area with a positive one |
| `EstimatorForm.StampedConcreteExample` | src/components/forms/EstimatorForm.tsx:62-82 | 1000 sq ft of stamped concrete at standard tiers costs 18000, shown as 16200 to 19800 |
| `EstimatorForm.NextStepIndex` | src/components/forms/EstimatorForm.tsx:87-95 | "Next" moves one page on only when validation succeeds and never past page 6; the page stays in 0..6 |
| `EstimatorForm.PrevStepIndex` | src/components/forms/EstimatorForm.tsx:97-99 | "Previous" moves one page back and never before page 0; the page stays in 0..6 |
| `EstimatorForm.NextAndPrevAreInverse` | src/components/forms/EstimatorForm.tsx:87-99 | away from the ends, "Next" then "Previous" (and the reverse) returns to the same page |
| `EstimatorForm.Progress` | src/components/forms/EstimatorForm.tsx:107 | none of its own; `((currentStep + 1) / steps.length) * 100`, specified by `EstimatorForm.ProgressBounds` |
| `EstimatorForm.ProgressBounds` | src/components/forms/EstimatorForm.tsx:107 | progress lies in (0, 100], strictly grows with the page and is 100 exactly on the last page |
| `EstimatorForm.ShownOnPage` | src/components/forms/EstimatorForm.tsx:257-266 | the estimated range appears only on page 2 and only once an estimate exists |
| `EstimatorForm.ComputedEstimateIsShown` | src/components/forms/EstimatorForm.tsx:257-266 | every estimate the form computes is nonzero, so page 2 shows its range |
| `EstimatorForm.Form.constructor` | src/components/forms/EstimatorForm.tsx:43-44 | the form starts on page 0 with no estimate |
| `EstimatorForm.Form.CalculateEstimate` | src/components/forms/EstimatorForm.tsx:56-85 | it overwrites `estimate` only when the input is accepted, and otherwise leaves it untouched |
| `EstimatorForm.Form.NextStep` | src/components/forms/EstimatorForm.tsx:87-95 | it keeps 0 ≤ currentStep ≤ 6; it advances only when valid; it recomputes the estimate only on a valid advance from page 2 |
| `EstimatorForm.Form.PrevStep` | src/components/forms/EstimatorForm.tsx:97-99 | it keeps 0 ≤ currentStep ≤ 6, steps back by one clamped at 0 and leaves the estimate alone |
| `EstimatorForm.Form.Title` | src/components/forms/EstimatorForm.tsx:133-143 | none of its own; `steps[currentStep].title`, whose index the `Valid()` requirement keeps in 0..6 |
| `EstimatorForm.ReplaceFirst` | src/components/forms/EstimatorForm.tsx:204 | `replace` with a string pattern: with no occurrence the text is unchanged; otherwise the first occurrence becomes `to` and every other character is kept |
| `EstimatorForm.IndexOf` | src/components/forms/EstimatorForm.tsx:204 | the first position holding the character, with none before it; -1 exactly when the character does not occur |
| `EstimatorForm.ReplaceAll` | src/components/forms/EstimatorForm.tsx:204 | every occurrence becomes `to`, every other character is kept, and the replaced character no longer occurs |
| `EstimatorForm.CapitalizeWords` | src/components/forms/EstimatorForm.tsx:204 | `/\b\w/g` with `toUpperCase`: the length is kept, a character that starts a word is no longer a lower-case letter, every other character is kept, and each character lower-cases to the original's lower case |
| `EstimatorForm.CapitalizeChangesCaseOnly` | src/components/forms/EstimatorForm.tsx:204 | lower-cased, a capitalised label is the lower-cased text it came from |
| `EstimatorForm.ServiceLabel` | src/components/forms/EstimatorForm.tsx:204 | none of its own; the label as written, specified by `EstimatorForm.PatiosLabelKeepsHyphen` (the whole label "Patios Pool-Decks") and `EstimatorForm.LabelsAgreeOnOneHyphen` |
| `EstimatorForm.IntendedServiceLabel` | src/components/forms/EstimatorForm.tsx:204 | none of its own; the corrected label, specified by `EstimatorForm.PatiosLabelKeepsHyphen` (the whole label "Patios Pool Decks") and `EstimatorForm.IntendedLabelHasNoHyphen` |
| `EstimatorForm.CapitalizeKeepsNonLetters` | src/components/forms/EstimatorForm.tsx:204 | the word-capitalising regex changes only lower-case letters |
| `EstimatorForm.PatiosLabelKeepsHyphen` | src/components/forms/EstimatorForm.tsx:204 | the button for "patios-pool-decks" reads exactly "Patios Pool-Decks"; the corrected label reads exactly "Patios Pool Decks" |
| `EstimatorForm.IntendedLabelHasNoHyphen` | src/components/forms/EstimatorForm.tsx:204 | the corrected label never contains a hyphen |
| `EstimatorForm.LabelsAgreeOnOneHyphen` | src/components/forms/EstimatorForm.tsx:190-204 | on a name with at most one hyphen the written and corrected labels coincide |
| `EstimatorWidget.Estimate` | src/components/widgets/EstimatorWidget.tsx:16-30 | there is a result exactly when the parsed area is a number above 0, and every result is strictly positive |
| `EstimatorWidget.EstimateIncreasesWithComplexity` | src/components/widgets/EstimatorWidget.tsx:21-28 | for a fixed positive area the estimate strictly increases along the complexity tiers |
| `EstimatorWidget.EstimateIncreasesWithArea` | src/components/widgets/EstimatorWidget.tsx:28 | for a fixed tier a larger area gives a strictly larger estimate |
| `EstimatorWidget.PremiumExample` | src/components/widgets/EstimatorWidget.tsx:20-28 | 500 sq ft at the premium tier costs 6400, shown as 5760 to 7040 |
| `EstimatorWidget.ShownRangeIsOrdered` | src/components/widgets/EstimatorWidget.tsx:108-117 | every widget estimate is displayed, with low ≤ high |
| `EstimatorWidget.Widget.constructor` | src/components/widgets/EstimatorWidget.tsx:13-14 | complexity starts as 'standard' and there is no estimate |
| `EstimatorWidget.Widget.SetComplexity` | src/components/widgets/EstimatorWidget.tsx:88-98 | the select sets complexity to one of the four tiers |
| `EstimatorWidget.Widget.CalculateEstimate` | src/components/widgets/EstimatorWidget.tsx:16-30 | rejected input leaves `estimate` unchanged; accepted input overwrites it |
| `EstimatorVariants.WidgetIsFormForEpoxy` | src/components/widgets/EstimatorWidget.tsx:20-28 | on positive input the widget equals the full form for epoxy flooring (rate 8) with the standard timeline |
| `EstimatorVariants.RejectionRulesDiffer` | src/components/widgets/EstimatorWidget.tsx:17-18 | whatever the form declines, the widget declines; they disagree exactly on negative input |
| `CuringCountdown.GetTimeRemaining` | src/components/widgets/CuringCountdown.tsx:52-63 | overdue exactly when end − now ≤ 0, and then all counts are zero; otherwise days ≥ 0, hours < 24, minutes < 60 |
| `CuringCountdown.EndMs` | src/components/widgets/CuringCountdown.tsx:53 | none of its own; the start plus `curingDays` whole days, used by `CuringCountdown.GetTimeRemaining` |
| `CuringCountdown.Reconstruction` | src/components/widgets/CuringCountdown.tsx:58-60 | days·86400000 + hours·3600000 + minutes·60000 ≤ diff < that sum + 60000 |
| `CuringCountdown.ReadingIsUnique` | src/components/widgets/CuringCountdown.tsx:58-62 | any bounded days/hours/minutes that read the difference to the minute are the result |
| `CuringCountdown.StatusIcon` | src/components/widgets/CuringCountdown.tsx:65-69 | none of its own; specified by `CuringCountdown.IconMatchesColor` |
| `CuringCountdown.StatusColor` | src/components/widgets/CuringCountdown.tsx:71-75 | none of its own; specified by `CuringCountdown.IconMatchesColor` |
| `CuringCountdown.IconMatchesColor` | src/components/widgets/CuringCountdown.tsx:65-75 | icon and colour always agree; overdue beats 'ready'; 'curing' is the fallback, even for a recorded 'overdue' status |
| `CuringCountdown.MinutesTextUnderAnHour` | src/components/widgets/CuringCountdown.tsx:100-112 | "complete in N minutes" shows exactly when 0 < diff < 1 hour, with N = diff div 60000; "period complete" shows exactly when diff ≤ 0 |
| `CuringCountdown.Describe` | src/components/widgets/CuringCountdown.tsx:100-112 | none of its own; the three texts, specified by `CuringCountdown.MinutesTextUnderAnHour` |
| `Text.Lower` | src/components/sections/ProjectsGallery.tsx:120-122 | `toLowerCase` keeps the length; it is idempotent by `Text.LowerIsIdempotent` |
| `Text.LowerIsIdempotent` | src/components/sections/ProjectsGallery.tsx:120-122 | lower-casing twice is lower-casing once |
| `Text.Contains` | src/components/sections/ProjectsGallery.tsx:120-122 | none of its own; `includes`, the pattern occurs at some position; `Text.ContainsEmpty` states that the empty pattern always occurs |
| `Text.ContainsEmpty` | src/components/sections/ProjectsGallery.tsx:120-122 | `includes('')` holds for every text |
| `Text.SearchMatches` | src/components/sections/ProjectsGallery.tsx:120-122 | none of its own; the title/description/tags search rule, specified by `Text.EmptySearchMatches` and `Text.SearchIgnoresCase` |
| `Text.SearchIgnoresCase` | src/components/sections/ProjectsGallery.tsx:120-122 | lower-casing the search term does not change what matches |
| `Text.EmptySearchMatches` | src/components/sections/ProjectsGallery.tsx:120-122 | an empty search term matches every item |
| `ProjectsGallery.FilteredProjects` | src/components/sections/ProjectsGallery.tsx:116-126 | every shown project is in the catalogue and matches the category, location and search; every matching project is shown |
| `ProjectsGallery.Matches` | src/components/sections/ProjectsGallery.tsx:118-124 | none of its own; category, location and search, the three conditions of the filter, used by `ProjectsGallery.FilteredProjects` |
| `ProjectsGallery.FilteredKeepsOrder` | src/components/sections/ProjectsGallery.tsx:117 | the shown list is a subsequence of the catalogue, with each matching project as often as listed |
| `ProjectsGallery.SearchIgnoresTermCase` | src/components/sections/ProjectsGallery.tsx:120-122 | the shown list does not depend on the case of the search term |
| `ProjectsGallery.ClearFilters` | src/components/sections/ProjectsGallery.tsx:242-246 | Clear Filters sets 'All', 'All Locations' and the empty search |
| `ProjectsGallery.ClearedShowsAll` | src/components/sections/ProjectsGallery.tsx:111-122 | with the default filters the shown list is the whole catalogue |
| `ProjectsGallery.ClearFiltersShowsAll` | src/components/sections/ProjectsGallery.tsx:242-246 | after Clear Filters the whole catalogue is shown, whatever was selected |
| `ProjectsGallery.EmptyStateMeansNoMatch` | src/components/sections/ProjectsGallery.tsx:238 | "No projects found" appears exactly when no project matches |
| `ProjectsGallery.ShowsEmptyState` | src/components/sections/ProjectsGallery.tsx:238 | none of its own; `filteredProjects.length === 0`, specified by `ProjectsGallery.EmptyStateMeansNoMatch` |
| `BlogGrid.FilteredPosts` | src/components/sections/BlogGrid.tsx:101-107 | every filtered post is listed and matches both category and search; every matching post is kept |
| `BlogGrid.Matches` | src/components/sections/BlogGrid.tsx:102-106 | none of its own; category and search, used by `BlogGrid.FilteredPosts` |
| `BlogGrid.FilteredKeepsOrder` | src/components/sections/BlogGrid.tsx:101 | the filtered posts form a subsequence of the list, with each matching post as often as listed |
| `BlogGrid.FeaturedPost` | src/components/sections/BlogGrid.tsx:109 | the featured post is a listed post flagged as featured; there is none exactly when no post is flagged |
| `BlogGrid.FeaturedIsFirst` | src/components/sections/BlogGrid.tsx:109 | the featured post is the first flagged one |
| `BlogGrid.RegularPosts` | src/components/sections/BlogGrid.tsx:110 | none of its own; specified by `BlogGrid.RegularPostsAreMatchingUnfeatured` |
| `BlogGrid.ShowsFeaturedCard` | src/components/sections/BlogGrid.tsx:142 | none of its own; specified by `BlogGrid.FeaturedCardIsAMatch` and `BlogGrid.ClearFiltersShowsAll` |
| `BlogGrid.PageView` | src/components/sections/BlogGrid.tsx:142-244 | none of its own; the card, grid and message as written, specified by `BlogGrid.FeaturedCardIsAMatch`, `BlogGrid.EmptyStateFollowsFilteredPosts` and `BlogGrid.MaintenanceTipsShowsNothing` |
| `BlogGrid.RegularPostsAreMatchingUnfeatured` | src/components/sections/BlogGrid.tsx:110 | the grid holds exactly the matching non-featured posts, in list order |
| `BlogGrid.ClearFilters` | src/components/sections/BlogGrid.tsx:248-251 | Clear Filters resets the category to 'All' and the search to '' |
| `BlogGrid.ClearFiltersShowsAll` | src/components/sections/BlogGrid.tsx:248-251 | after Clear Filters every post matches, and the featured card returns whenever a post is featured |
| `BlogGrid.FeaturedCardIsAMatch` | src/components/sections/BlogGrid.tsx:142 | the card shows exactly when a featured post exists, the category is 'All' and the search is empty; it holds a featured matching post |
| `BlogGrid.EmptyStateFollowsFilteredPosts` | src/components/sections/BlogGrid.tsx:244 | the empty-state message appears exactly when no post matches, and then the grid is empty too |
| `BlogGrid.OnlyFeaturedPostIsMaintenanceTip` | src/components/sections/BlogGrid.tsx:25-93 | every listed post in the category 'Maintenance Tips' is featured |
| `BlogGrid.MaintenanceTipsShowsNothing` | src/components/sections/BlogGrid.tsx:110 | for category 'Maintenance Tips' a post matches, yet the page shows no card, an empty grid and no empty-state message |
| `BlogGrid.IntendedPageView` | src/components/sections/BlogGrid.tsx:142-244 | none of its own; the corrected page, specified by `BlogGrid.IntendedViewShowsEveryMatch` |
| `BlogGrid.IntendedViewShowsEveryMatch` | src/components/sections/BlogGrid.tsx:142-244 | in the corrected page a post is on screen exactly when it matches; the message appears exactly when nothing is on screen |
| `Services.GetServiceBySlug` | src/lib/services.ts:180-182 | a returned service is in the catalogue and has the queried slug; the result is undefined exactly when no service has that slug |
| `Services.GetServiceBySlugIsFirst` | src/lib/services.ts:181 | the lookup returns the first service carrying the slug |
| `Services.GetAllServiceSlugs` | src/lib/services.ts:184-186 | there is one slug per service, in catalogue order |
| `Services.ListedIffFound` | src/lib/services.ts:180-186 | a slug is listed exactly when the lookup finds a service for it |
| `Services.SlugsAreDistinct` | src/lib/services.ts:26-178 | no two services share a slug |
| `Services.PublishedSlugsResolve` | src/lib/services.ts:26-178 | 'driveways-walkways' and 'stamped-concrete' each resolve to their own entry |
| `Seqs.Filter` | src/components/sections/ProjectsGallery.tsx:117 | `Array.filter`: no longer than its input, every kept element is in the input and passes, every passing element is kept |
| `Seqs.FilterIsSubsequence` | src/components/sections/BlogGrid.tsx:101 | `Array.filter` keeps the input order |
| `Seqs.FilterMultiplicity` | src/components/sections/BlogGrid.tsx:101 | `Array.filter` keeps each passing element as often as it occurs, and drops every failing one |
| `Seqs.FilterTwice` | src/components/sections/BlogGrid.tsx:101-110 | filtering the filtered list again equals one filter by both conditions |
| `Seqs.Find` | src/lib/services.ts:181 | `Array.find`: a result is in the input and passes; there is none exactly when no element passes |
| `Seqs.FindIsFirst` | src/components/sections/BlogGrid.tsx:109 | `Array.find` returns the first passing element |

## Left out

- Floating point: products and `Math.round` are over exact reals. IEEE-754 rounding of `estimate * 0.9` and of the other products is not modelled.
- `parseFloat` is not modelled. Its result is the `Option<real>` argument, so the model starts from what parsing gives for an empty field, a non-numeric field or trailing text.
- `Text.Lower` maps only the ASCII letters A–Z; JavaScript's Unicode case mapping in `toLowerCase` and `toUpperCase` is not modelled.
- Form validation (react-hook-form with zod) is a foreign library. Its outcome is the `isValid` argument of `NextStep`. Which fields the library checks on each page is not modelled. `nextStep` calls `form.trigger()` with no field names, which validates the whole schema, so on page 0 the empty fields of the later pages would make `isValid` false. The modelled "Next" therefore advances only when the library reports success, and the source as written probably never does (not executed).
- The enum constraints on complexity and timeline are datatypes, so out-of-range strings cannot reach the model. In the source they would give `NaN`.
- `EstimatorForm.BaseRate`: any unlisted service type gets 15. In JavaScript an inherited property name such as "constructor" would find a function on the object's prototype and give `NaN` instead.
- The widget's open/close modal state and its raw text field are not modelled. `CalculateEstimate` receives the parsed value.
- The form's submit handler (console log and alert) is I/O.
- The gallery's selected-project modal is pure rendering.
- JSX rendering, Tailwind classes, framer-motion animation and `toLocaleString`/`toLocaleDateString` formatting are presentation.
- `CuringCountdown.GetTimeRemaining`: the one-minute `setInterval` clock and `Date` construction are timers and a library, so the current time is the `nowMs` argument. `curingDays` is an integer.
- Catalogue data: the project catalogue is not transcribed, so the gallery filter is proved for any catalogue. Services keep only slug, title and category. Blog posts keep only id, title, excerpt, category, tags and featured.
- ContactForm, WeatherWidget, ServiceAreaMap, navigation, footer and the static content sections are not part of this model. They are I/O, timers, display geometry or constant content.

## Findings

| source | as written | input that shows it | evidently intended | confidence | as-written member | corrected member |
|---|---|---|---|---|---|---|
| src/components/forms/EstimatorForm.tsx:204 | `service.replace('-', ' ')` replaces only the first hyphen | service type "patios-pool-decks" is labelled "Patios Pool-Decks" | every hyphen becomes a space ("Patios Pool Decks"), as in the other four labels | medium, not executed | `EstimatorForm.PatiosLabelKeepsHyphen` | `EstimatorForm.IntendedLabelHasNoHyphen` |
| src/components/sections/BlogGrid.tsx:110 | the grid drops featured posts even while the featured card is hidden; the empty-state message tests `filteredPosts` | category "Maintenance Tips" with an empty search matches only the featured post, so the page shows no article and no "No articles found" message | every matching post appears in the card or the grid, and the message appears when none does | medium, not executed | `BlogGrid.MaintenanceTipsShowsNothing` | `BlogGrid.IntendedViewShowsEveryMatch` |
