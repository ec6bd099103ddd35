# ReviewScraperProject in Dafny

This project models the review normalisation pipeline of ReviewScraperProject.

The system is a command-line tool. It takes a company name, a date range and a source selector, and collects software reviews of that company from G2, Capterra and Trustpilot. It normalises every review's date to `YYYY-MM-DD`, keeps the reviews in the date range, and writes them, grouped by source, into one JSON document. A pair of test utilities checks the shape of that document and counts its reviews.

The model covers the logic between the network and the file:

- **`Civil`** models calendar dates the way Python's `datetime` has them:
  - days are numbered from 0001-01-01, and the conversion back from a day number is proved;
  - `strftime('%Y-%m-%d')` is modelled as `Iso`.
- **`DateFormats`** models `datetime.strptime` for the five formats the scrapers use.
  - It follows the regular expressions CPython builds for a format, in the order they try their alternatives.
  - The first-match loop over a list of formats is modelled too.
- **`Relative`** models three things:
  - the `(\d+)\s*(\w+)\s*ago` search, with its backtracking;
  - the first run of digits in a text;
  - the date arithmetic of the relative branches: days, hours, and calendar months with day clamping.
- **`Normalise`** holds two steps shared by all sites: rendering a computed date, and the absolute-format step.
- **`Reviews`** holds:
  - the `Review` record;
  - a JSON value type;
  - `to_dict` and its inverse `FromDict`;
  - Python's `in` on dictionaries, lists and strings.
- **`BaseScraper`** holds:
  - the `Scraper` class: the company, the date range, the site name, and the mutable `reviews` list;
  - the fail-open `filter_by_date`;
  - the record of a pagination run (`Crawl`): the reviews, the requests made, and why it stopped.
- **`G2`**, **`Capterra`** and **`Trustpilot`** model one site each:
  - its `_parse_review_date`;
  - its `_find_company_url`;
  - its extraction of one review with placeholder defaults;
  - its `scrape` pagination loop.

  Each site is a record of functions. They take a request address and give back what the page lookups found, or `None` for a request that raised.
- **`Orchestrator`** models `main.py`:
  - `validate_inputs`;
  - `scrape_reviews`, which runs the selected scrapers in order and turns an exception into an error entry;
  - the summary total and the exit code.
- **`TestUtils`** models `validate_json_structure` and `count_reviews` from `test_utils.py`, over an already decoded JSON value.

The stateful parts are methods with loops:

- `BaseScraper.Scraper.FilterByDate`, the date filter, is a method of the `Scraper` class;
- each site's `Paginate`, the pagination loop, is a module-level method that takes the `Scraper` and updates its `reviews`;
- `G2.AddCards`, `Capterra.AddCards` and `Trustpilot.AddElements`, the loop over the containers of a page, are module-level methods of the same kind;
- `Capterra.ChooseDescription`, the loop that chooses a description, takes the paragraphs of a card.

Each method is proved equal to a function of its inputs. The properties themselves are proved as lemmas about those functions.

These functions define what a source function computes; the rows of the table below state what is proved about them:

- `validate_inputs` is `Orchestrator.ValidateInputs`;
- the summary's `sum(...)` of `total_reviews` is `Orchestrator.SummaryTotal`;
- `main`'s return value is `Orchestrator.ExitCode`;
- `validate_json_structure` is `TestUtils.Validate`;
- `count_reviews` is `TestUtils.Counts`;
- each site's `scrape` loop is its `Collect`, and the whole `scrape`, with the company lookup and the filter, is its `Scraped`;
- each site's page address is its `PageUrl`;
- G2's `float(rating_elem.get_text(strip=True).split('/')[0])` is `G2.SlashRating`;
- Capterra's choice of a description is `Capterra.Describe`;
- the relative branch of `_parse_review_date` is `RelativeDate` in each site module, with `UnitDate` choosing the unit's arithmetic for Capterra and Trustpilot.

Where the project's own documentation and the code disagree, the model follows the code:

- **An unresolved company.** A company a site cannot resolve gives the entry `{total_reviews: 0, reviews: []}`, not an error entry. Each `scrape` returns `[]` itself.
- **The 100-review cap.** The cap is checked only at the head of the loop. G2 and Capterra append every review of a page, and Trustpilot every new titled one, so the collected list can exceed 100 reviews. `CollectFetchHeld` states what does hold: every request was made while fewer than 100 reviews were held.
- **G2's day and week branches.** They call `timedelta`, which `scrapers/g2_scraper.py` never imports. The resulting `NameError` is caught, so "N days ago" and "N weeks ago" come back unchanged.
- **G2's months.** G2 goes back calendar months (`relativedelta`), while Capterra and Trustpilot go back 30·N days.

## Model

| member | source | states |
|---|---|---|
| Reviews.ToDict | scrapers/base_scraper.py:23-33 | The dictionary has exactly the seven keys title, description, date, rating, reviewer_name, source and url, in that order. |
| Reviews.ToDictFields | scrapers/base_scraper.py:23-33 | Each key of `to_dict` holds the corresponding field of the review. |
| Reviews.ToDictRoundTrip | scrapers/base_scraper.py:12-33 | Reading the seven keys back from `to_dict` gives the original review, so no field is lost or mixed up. |
| Reviews.In | test_utils.py:26-30 | Python's `key in v`. For a dictionary it holds exactly when the lookup `v[key]` finds a value. For a list it holds exactly when some element is the text. For a string it holds exactly when the key occurs at some position. Any other value raises a TypeError. |
| Strings.ContainsIff | scrapers/g2_scraper.py:53-54 | The substring test `w in s` holds exactly when `w` occurs in `s` at some position. |
| BaseScraper.Scraper.constructor | scrapers/base_scraper.py:39-45 | A fresh scraper holds its company, dates and site name, and no reviews. |
| BaseScraper.Scraper.GetReviews | scrapers/base_scraper.py:85-87 | `get_reviews` returns the held list unchanged. |
| BaseScraper.Scraper.FilterByDate | scrapers/base_scraper.py:52-63 | The loop builds exactly the fail-open filter of the input. |
| BaseScraper.Filter | scrapers/base_scraper.py:52-63 | The output is no longer than the input, and each kept review comes from the input and is unparseable or in range. |
| BaseScraper.FilterMembers | scrapers/base_scraper.py:55-62 | A review is in the output if and only if it is in the input and its date either fails '%Y-%m-%d' or lies in [start, end], both ends included. |
| BaseScraper.UnparseableKept | scrapers/base_scraper.py:60-62 | Fail-open: a review whose date does not parse is never dropped. |
| BaseScraper.InRangeKept | scrapers/base_scraper.py:57-59 | A review whose parsed date lies in [start, end] is never dropped. |
| BaseScraper.OutOfRangeDropped | scrapers/base_scraper.py:57-59 | A review whose parsed date lies outside [start, end] is dropped. |
| BaseScraper.FilterSubsequence | scrapers/base_scraper.py:54-63 | The output is a subsequence of the input, so relative order is kept. |
| BaseScraper.FilterAppend | scrapers/base_scraper.py:54-63 | Filtering a concatenation is concatenating the filtered parts. |
| BaseScraper.FilterIdentity | scrapers/base_scraper.py:54-63 | The filter leaves a list unchanged if and only if it keeps every review of it. |
| BaseScraper.FilterIdempotent | scrapers/base_scraper.py:52-63 | Filtering the output again gives the same list. |
| BaseScraper.ReadAllAt | scrapers/g2_scraper.py:106-148 | The k-th review read from a page comes from its k-th container. |
| Civil.FromDayNumberInverse | scrapers/capterra_scraper.py:60-71 | Converting a day number back to a date and numbering it again gives the same number, as the day arithmetic of the relative branches needs. |
| Civil.Iso | scrapers/trustpilot_scraper.py:68 | `strftime('%Y-%m-%d')` gives ten characters: four digits, '-', two digits, '-', two digits. |
| DateFormats.ParseFirst | scrapers/trustpilot_scraper.py:83-89 | The loop over the formats returns the date of the first format that parses. |
| DateFormats.FirstMatchWins | scrapers/trustpilot_scraper.py:83-89 | No result means every format fails. Otherwise some format gives the result and every earlier format fails. |
| DateFormats.IsoRoundTrip | scrapers/base_scraper.py:57 | Parsing a canonical date with '%Y-%m-%d' gives the date back. |
| DateFormats.IsoFirstMatch | scrapers/g2_scraper.py:69-75 | With '%Y-%m-%d' third after the two month-name formats, a canonical date is read as itself. |
| DateFormats.MonthFirstExample | scrapers/capterra_scraper.py:74-80 | '%m/%d/%Y' reads "03/04/2023" as 4 March 2023. |
| DateFormats.NoDigitRulesOut | scrapers/trustpilot_scraper.py:83-91 | No known format parses a text without digits. |
| DateFormats.NoSeparatorRulesOut | scrapers/trustpilot_scraper.py:83-91 | No known format parses a text without ',', '/' and '-'. |
| DateFormats.MatchFootprint | scrapers/trustpilot_scraper.py:83-89 | A successful match needs every literal of the format, and a digit when the format reads one, in the text. |
| Relative.PhraseMatches | scrapers/trustpilot_scraper.py:61-64 | On "N unit ago" the pattern captures exactly N and the unit. |
| Relative.PhraseFirstNumber | scrapers/g2_scraper.py:55 | The first run of digits in "N unit ago" is N. |
| Relative.NoDigitNoAgoMatch | scrapers/trustpilot_scraper.py:61-64 | A text without digits gives neither an "ago" match nor a first number. |
| Relative.NumberRating | scrapers/trustpilot_scraper.py:154-161 | A rating exists if and only if the element exists and its text holds a digit run; it is the first such run. |
| Relative.LeadingRating | scrapers/capterra_scraper.py:142-149 | A rating text that starts with a number is rated that number. |
| Relative.DaysBefore | scrapers/trustpilot_scraper.py:69-77 | `now - timedelta(days=k)` exists if and only if it does not go before 0001-01-01, and it is exactly k days earlier. |
| Relative.HoursBefore | scrapers/trustpilot_scraper.py:78-80 | `now - timedelta(hours=h)` is the day that holds the instant h hours earlier; none before 0001-01-01. |
| Relative.MonthsBefore | scrapers/g2_scraper.py:54-58 | `now - relativedelta(months=k)` is k calendar months earlier, on the same day moved back to the month's last day when needed; none before year 1. |
| Relative.PhraseContains | scrapers/trustpilot_scraper.py:62-66 | A word occurs in the lower-cased "N unit ago" if and only if it occurs in the lower-cased unit or in "ago". |
| Normalise.Render | scrapers/trustpilot_scraper.py:66-80 | A computed date gives its canonical text, which parses back to it; an overflow gives the raw text. |
| Normalise.Absolute | scrapers/trustpilot_scraper.py:83-91 | The absolute step gives either the raw text or a canonical date. |
| Normalise.AbsoluteNoDigits | scrapers/trustpilot_scraper.py:83-91 | A text without digits comes back unchanged from the absolute step. |
| Normalise.AbsoluteNoSeparators | scrapers/trustpilot_scraper.py:83-91 | A text without ',', '/' and '-' comes back unchanged from the absolute step. |
| Normalise.AbsoluteCanonical | scrapers/g2_scraper.py:69-75 | A canonical date comes back unchanged from the absolute step. |
| G2.NormalizeDate | scrapers/g2_scraper.py:49-80 | The result is the raw text or a canonical date. |
| G2.ParseReviewDate | scrapers/g2_scraper.py:49-80 | The branch chain and the loop over the formats compute `NormalizeDate`. |
| G2.MonthsAgo | scrapers/g2_scraper.py:54-58 | "N months ago" is the date N calendar months before `now`, clamped to the month's end. |
| G2.MonthsBranch | scrapers/g2_scraper.py:53-58 | Any text with "ago", "month" and first number k goes back k calendar months. |
| G2.DaysAndWeeksUnchanged | scrapers/g2_scraper.py:59-66 | "N days ago" and "N weeks ago" come back unchanged: the `timedelta` call raises a `NameError`, which is caught at lines 78-80. |
| G2.UnknownUnitUnchanged | scrapers/g2_scraper.py:53-77 | "N unit ago" with a unit naming none of month, day and week comes back unchanged. |
| G2.YearsUnchanged | scrapers/g2_scraper.py:53-77 | There is no year unit: "N years ago" comes back unchanged. |
| G2.NoDigitsUnchanged | scrapers/g2_scraper.py:53-77 | A text without digits comes back unchanged, whichever branch it takes. |
| G2.CanonicalUnchanged | scrapers/g2_scraper.py:69-75 | A canonical date comes back unchanged. |
| G2.Idempotent | scrapers/g2_scraper.py:49-80 | Normalising twice is normalising once. |
| G2.BeforeSlash | scrapers/g2_scraper.py:130 | `split('/')[0]` is a prefix without '/' that stops at the first '/'. |
| G2.TenthsRating | scrapers/g2_scraper.py:126-132 | "i.d/…" is rated i + d/10. |
| G2.RatingExample | scrapers/g2_scraper.py:126-132 | "4.5/5" is rated 4.5. |
| G2.FindCompanyUrl | scrapers/g2_scraper.py:24-47 | The address is the base joined to the first product link, or, without one, to the first "/products/" link. None means the search failed, the product link had no `href`, or no link qualified (both directions). |
| G2.ExtractReview | scrapers/g2_scraper.py:112-148 | One card gives its review, with placeholders, the normalised date and the slash rating. |
| G2.ExtractDefaults | scrapers/g2_scraper.py:115-136 | Missing parts give "No Title", "No Description", today's date, no rating and "Anonymous". |
| G2.AddCards | scrapers/g2_scraper.py:112-150 | The loop over a page appends the review of every card, in order. |
| G2.Paginate | scrapers/g2_scraper.py:92-153 | The pagination loop ends with the reviews of the crawl from page 1. |
| G2.Scrape | scrapers/g2_scraper.py:82-163 | `scrape` returns the date-filtered crawl and stores it; for an unresolved product it returns [] and leaves the reviews alone. |
| G2.CollectContents | scrapers/g2_scraper.py:106-148 | There is no de-duplication: the crawl ends with what it started with, followed by every review of every fetched page, in request order. |
| G2.CollectFetchUrls | scrapers/g2_scraper.py:92-94 | The i-th request asks for `company_url/reviews?page=(1+i)`. |
| G2.CollectFetchHeld | scrapers/g2_scraper.py:93 | Every request was made while fewer than 100 reviews were held. |
| G2.CollectStops | scrapers/g2_scraper.py:93-110 | The loop stops at the cap exactly when 100 or more reviews are held. Otherwise its last request failed or found no cards, and it never stops for a page that adds nothing. |
| G2.CollectedFacts | scrapers/g2_scraper.py:138-157 | After filtering, every collected review is kept by the filter and carries "G2" and the product address. |
| G2.ScrapedFacts | scrapers/g2_scraper.py:82-163 | A fresh scraper returns only in-range reviews labelled "G2" with the product address, and [] for an unresolved product. |
| Capterra.NormalizeDate | scrapers/capterra_scraper.py:50-85 | The result is the raw text or a canonical date. |
| Capterra.ParseReviewDate | scrapers/capterra_scraper.py:50-85 | The branch chain and the loop over the formats compute `NormalizeDate`. |
| Capterra.PhraseRelative | scrapers/capterra_scraper.py:54-71 | On "N unit ago" the relative step dispatches on the lower-cased unit and N. |
| Capterra.MonthsAgo | scrapers/capterra_scraper.py:60-62 | "N months ago" is `now` minus 30·N days. |
| Capterra.DaysAgo | scrapers/capterra_scraper.py:63-65 | "N days ago" is `now` minus N days. |
| Capterra.WeeksAgo | scrapers/capterra_scraper.py:66-68 | "N weeks ago" is `now` minus 7·N days. |
| Capterra.YearsAgo | scrapers/capterra_scraper.py:69-71 | "N years ago" is `now` minus 365·N days. |
| Capterra.UnknownUnitUnchanged | scrapers/capterra_scraper.py:54-82 | A unit naming none of the four units comes back unchanged. |
| Capterra.HoursUnchanged | scrapers/capterra_scraper.py:54-82 | There is no hour unit: "N hours ago" comes back unchanged. |
| Capterra.NoDigitsUnchanged | scrapers/capterra_scraper.py:54-82 | A text without digits comes back unchanged. |
| Capterra.CanonicalUnchanged | scrapers/capterra_scraper.py:74-80 | A canonical date comes back unchanged. |
| Capterra.Idempotent | scrapers/capterra_scraper.py:50-85 | Normalising twice is normalising once. |
| Capterra.FindCompanyUrl | scrapers/capterra_scraper.py:24-48 | The address is the base joined to the first product result, or, without results, to the first "/software/" link. None is returned exactly in the failing cases. |
| Capterra.FirstLongFacts | scrapers/capterra_scraper.py:126-134 | The chosen paragraph is longer than 10 characters, and every paragraph before it is 10 characters or shorter. |
| Capterra.DescribeFacts | scrapers/capterra_scraper.py:126-134 | The description is the first paragraph longer than 10 characters, or "No Description" when there is none. |
| Capterra.ChooseDescription | scrapers/capterra_scraper.py:126-134 | The loop with its `break` chooses exactly that description. |
| Capterra.ExtractReview | scrapers/capterra_scraper.py:119-165 | One card gives its review, with placeholders, the normalised date and the first digit run as rating. |
| Capterra.ExtractDefaults | scrapers/capterra_scraper.py:122-153 | Missing parts give "No Title", "No Description", today's date, no rating and "Anonymous". |
| Capterra.AddCards | scrapers/capterra_scraper.py:119-167 | The loop over a page appends the review of every card, in order. |
| Capterra.Paginate | scrapers/capterra_scraper.py:98-170 | The pagination loop ends with the reviews of the crawl from page 1. |
| Capterra.Scrape | scrapers/capterra_scraper.py:87-180 | `scrape` returns the date-filtered crawl and stores it; for an unresolved product it returns [] and leaves the reviews alone. |
| Capterra.CollectContents | scrapers/capterra_scraper.py:113-165 | There is no de-duplication and no "No Title" exclusion: every review of every fetched page is appended. |
| Capterra.CollectFetchUrls | scrapers/capterra_scraper.py:99-101 | The i-th request asks for page 1+i: `company_url#reviews` first, then `company_url?reviews_filter_json=%5B%5D&sort_type=most_recent&page=p#reviews`. |
| Capterra.CollectFetchHeld | scrapers/capterra_scraper.py:98 | Every request was made while fewer than 100 reviews were held. |
| Capterra.CollectStops | scrapers/capterra_scraper.py:98-117 | The loop stops at the cap exactly when 100 or more reviews are held. Otherwise its last request failed or found no cards. |
| Capterra.CollectedFacts | scrapers/capterra_scraper.py:155-174 | After filtering, every collected review is kept by the filter and carries "Capterra" and the product address. |
| Capterra.ScrapedFacts | scrapers/capterra_scraper.py:87-180 | A fresh scraper returns only in-range reviews labelled "Capterra" with the product address, and [] for an unresolved product. |
| Trustpilot.NormalizeDate | scrapers/trustpilot_scraper.py:56-94 | The result is the raw text or a canonical date. |
| Trustpilot.ParseReviewDate | scrapers/trustpilot_scraper.py:56-94 | The branch chain and the loop over the formats compute `NormalizeDate`. |
| Trustpilot.PhraseRelative | scrapers/trustpilot_scraper.py:60-80 | On "N unit ago" the relative step dispatches on the lower-cased unit and N. |
| Trustpilot.MonthsAgo | scrapers/trustpilot_scraper.py:66-68 | "N months ago" is `now` minus 30·N days. |
| Trustpilot.DaysAgo | scrapers/trustpilot_scraper.py:69-71 | "N days ago" is `now` minus N days. |
| Trustpilot.WeeksAgo | scrapers/trustpilot_scraper.py:72-74 | "N weeks ago" is `now` minus 7·N days. |
| Trustpilot.YearsAgo | scrapers/trustpilot_scraper.py:75-77 | "N years ago" is `now` minus 365·N days. |
| Trustpilot.HoursAgo | scrapers/trustpilot_scraper.py:78-80 | "N hours ago" is the day of the instant N hours before `now`. |
| Trustpilot.UnknownUnitUnchanged | scrapers/trustpilot_scraper.py:60-91 | A unit naming none of the five units comes back unchanged. |
| Trustpilot.NoDigitsUnchanged | scrapers/trustpilot_scraper.py:60-91 | A text without digits comes back unchanged. |
| Trustpilot.NoLetterAbsolute | scrapers/trustpilot_scraper.py:60-89 | A text without letters goes straight to the absolute formats. |
| Trustpilot.MonthFirstWins | scrapers/trustpilot_scraper.py:83-89 | In this format list, "03/04/2023" is first read by '%m/%d/%Y', as 4 March 2023. |
| Trustpilot.MonthBeforeDay | scrapers/trustpilot_scraper.py:83-89 | "03/04/2023" normalises to "2023-03-04". |
| Trustpilot.CanonicalUnchanged | scrapers/trustpilot_scraper.py:83-91 | A canonical date comes back unchanged. |
| Trustpilot.Idempotent | scrapers/trustpilot_scraper.py:56-94 | Normalising twice is normalising once. |
| Trustpilot.Slug | scrapers/trustpilot_scraper.py:30 | The slug keeps the name's length: each space becomes '-' and every other character is lower-cased. |
| Trustpilot.SlugShape | scrapers/trustpilot_scraper.py:30 | A slug has no blank and no capital letter. |
| Trustpilot.FindCompanyUrl | scrapers/trustpilot_scraper.py:26-54 | A probe answered with 200 gives its final address. Otherwise the address is the base joined to the first search link with "/review/" in it. None means the probe or the search raised, or no link qualifies (both directions). |
| Trustpilot.ExtractReview | scrapers/trustpilot_scraper.py:135-165 | One container gives its review, with placeholders, the normalised date and the first digit run as rating. |
| Trustpilot.ExtractDefaults | scrapers/trustpilot_scraper.py:137-165 | Missing parts give "No Title", "No Description", today's date, no rating and "Anonymous". |
| Trustpilot.ExtractAll | scrapers/trustpilot_scraper.py:133-165 | The k-th review of a page comes from its k-th container. |
| Trustpilot.Admit | scrapers/trustpilot_scraper.py:168-180 | Offering reviews only appends, at most one per review offered. |
| Trustpilot.AdmitUnique | scrapers/trustpilot_scraper.py:168-180 | The held reviews keep pairwise-distinct (title, date) pairs, and none is titled "No Title". |
| Trustpilot.AdmitCovers | scrapers/trustpilot_scraper.py:168-169 | Only duplicates are lost: every offered review with a real title has a held review with its (title, date). |
| Trustpilot.AdmitOrigin | scrapers/trustpilot_scraper.py:168-180 | Every appended review is one of those offered. |
| Trustpilot.AddPageOrigin | scrapers/trustpilot_scraper.py:133-180 | Every review a page appends is the extraction of one of its containers, labelled "Trustpilot" with the company address. |
| Trustpilot.AddElements | scrapers/trustpilot_scraper.py:133-183 | The loop over the containers appends the admitted reviews; `found_new_reviews` is set if and only if one was appended. |
| Trustpilot.Paginate | scrapers/trustpilot_scraper.py:107-189 | The pagination loop ends with the reviews of the crawl from page 1. |
| Trustpilot.Scrape | scrapers/trustpilot_scraper.py:96-199 | `scrape` returns the date-filtered crawl and stores it; an unresolved or empty address gives [] and leaves the reviews alone. |
| Trustpilot.CollectExtends | scrapers/trustpilot_scraper.py:107-189 | The loop only appends: what was held before is a prefix of what it ends with. |
| Trustpilot.CollectFetchesAny | scrapers/trustpilot_scraper.py:107 | A request is made if and only if fewer than 100 reviews are held at the start. |
| Trustpilot.CollectFetchUrls | scrapers/trustpilot_scraper.py:108-111 | The i-th request asks for page 1+i: `company_url` first, then `company_url?page=p`. |
| Trustpilot.CollectFetchHeld | scrapers/trustpilot_scraper.py:107 | Every request was made while fewer than 100 reviews were held. |
| Trustpilot.CollectStops | scrapers/trustpilot_scraper.py:107-187 | The loop stops at the cap exactly when 100 or more reviews are held. Otherwise its last request failed, found no containers, or added nothing new. |
| Trustpilot.CollectUnique | scrapers/trustpilot_scraper.py:168-187 | The de-duplication invariant holds of everything the loop collects. |
| Trustpilot.CollectLabels | scrapers/trustpilot_scraper.py:170-180 | Every appended review carries "Trustpilot" and the company address. |
| Trustpilot.FilterUnique | scrapers/trustpilot_scraper.py:193 | The date filter keeps the keys unique. |
| Trustpilot.CollectedFacts | scrapers/trustpilot_scraper.py:168-193 | After filtering, the reviews have unique keys, are kept by the filter, and carry "Trustpilot" and the company address. |
| Trustpilot.ScrapedFacts | scrapers/trustpilot_scraper.py:96-199 | A fresh scraper returns in-range, labelled reviews with unique (title, date) pairs, and [] for an unresolved company. |
| Orchestrator.ValidateAccepts | main.py:16-53 | The inputs are accepted if and only if the trimmed name is non-empty, both dates parse, start ≤ end, and the lower-cased selector is known. |
| Orchestrator.EmptyCompanyRejected | main.py:33-34 | An empty or blank name is rejected first, and only such a name is. |
| Orchestrator.DateFormatRejected | main.py:39-43 | Once the name is accepted, the date error is raised exactly when either date fails '%Y-%m-%d'. |
| Orchestrator.StartAfterEndRejected | main.py:45-46 | Once both dates parse, the order error is raised exactly when start > end; equal dates are not rejected. |
| Orchestrator.UnknownSourceRejected | main.py:49-51 | The selector error is raised exactly when every earlier check passes and the lower-cased selector is not one of g2, capterra, trustpilot and all. |
| Orchestrator.AcceptedInputs | main.py:33-53 | What is accepted is the trimmed, non-empty name, the two parsed dates in order, and the lower-cased known selector. |
| Orchestrator.SameDayAccepted | main.py:45-46 | A range of one day is accepted. |
| Orchestrator.ValidateNormalised | main.py:36-53 | Surrounding blanks of the name and the case of the selector do not change the verdict. |
| Orchestrator.ReturnedReviews | main.py:84-126 | A source whose scraper returned holds only reviews labelled with the name its entry is stored under, each kept by the date filter. |
| Orchestrator.RunSource | main.py:84-96 | One source block gives the entry of its outcome: the reviews of a fresh scraper, or the error entry. |
| Orchestrator.RunSources | main.py:77-126 | The three blocks add the entries of the selected sources, in order. |
| Orchestrator.ScrapeReviews | main.py:56-128 | `scrape_reviews` returns the company, the two canonical dates and those source entries. |
| Orchestrator.EntriesFrom | main.py:77-126 | An entry is present if and only if it belongs to a selected source and holds that source's outcome. |
| Orchestrator.AllSourcesInOrder | main.py:77-126 | "all" gives the entries of G2, Capterra and Trustpilot, in that order. |
| Orchestrator.SingleSource | main.py:77-126 | A single selector gives exactly its own entry; any other text gives none. |
| Orchestrator.Isolation | main.py:84-126 | A source's outcome depends only on whether its own scraper raised, never on the others. |
| Orchestrator.EntryShape | main.py:86-96 | A returned scraper gives its reviews as dictionaries, with their number. A raised one gives its message and 0, without reviews. |
| Orchestrator.UnresolvedCompany | main.py:86-92 | An unresolved company gives `{total_reviews: 0, reviews: []}`, not an error entry. |
| Orchestrator.EntriesTotal | main.py:216-219 | The summary total over the entries is the sum of the counts of the selected sources that returned. |
| Orchestrator.SummaryOfResults | main.py:213-219 | The summary of the orchestrator's output never fails, and it counts the returned reviews. |
| Orchestrator.ExitCodeZero | main.py:200-240 | The exit status is 0 if and only if validation passes and saving succeeds; it is otherwise 1. |
| TestUtils.FirstMissingPass | test_utils.py:26-30 | The key loop passes if and only if every key is present. A failure is a missing key or the TypeError of `in`. |
| TestUtils.CheckReviewsPass | test_utils.py:60-65 | The review loop passes if and only if each review has title, description, date, rating and reviewer_name. |
| TestUtils.CheckSourcePass | test_utils.py:46-65 | A source entry passes if and only if it has total_reviews and a list of reviews, each well shaped. |
| TestUtils.CheckSourcesPass | test_utils.py:46-65 | The source loop passes if and only if every entry is well shaped. |
| TestUtils.CheckDatePass | test_utils.py:33-38 | The date check passes if and only if the value is text in '%Y-%m-%d'. |
| TestUtils.ValidateIff | test_utils.py:11-78 | `validate_json_structure` is true if and only if no check fails: the four keys, both dates, a dictionary of sources, and well-shaped entries and reviews. |
| TestUtils.MissingKeyIsRequired | test_utils.py:26-30 | A reported missing key is one of the four required keys, and it is absent. |
| TestUtils.MissingKeyOnlyAtTop | test_utils.py:33-65 | Past the top-level keys, no check reports a missing top-level key. |
| TestUtils.ErrorEntryRejected | test_utils.py:52-54 | An error entry `{error, total_reviews: 0}` fails at its missing reviews. |
| TestUtils.EntryShaped | test_utils.py:46-57 | An orchestrator entry is well shaped if and only if its scraper returned. |
| TestUtils.OutputValid | test_utils.py:11-78 | The orchestrator's output passes validation if and only if every selected scraper returned. |
| TestUtils.CountReviews | test_utils.py:81-108 | The loop computes the counts: each source's number of reviews and the total, or `{}` after an error. |
| TestUtils.TallyTotal | test_utils.py:98-103 | The running total is the sum of the per-source counts, and the loop fails exactly when an entry raises. |
| TestUtils.TallyCounts | test_utils.py:98-101 | With distinct names, each source is counted and nothing else is. |
| TestUtils.TallyStaysNone | test_utils.py:98-108 | Once an entry raises, the whole count does. |
| TestUtils.CountsFacts | test_utils.py:81-108 | 'total' is the sum of the counts, and each source maps to `len(reviews)`, with 0 when reviews is missing. |
| TestUtils.EntriesSum | test_utils.py:98-103 | Over the orchestrator's entries, the counts sum to the reviews of the selected sources that returned. |
| TestUtils.CountsMatchSummary | test_utils.py:103 | On the orchestrator's output, the 'total' of `count_reviews` equals the summary total of `main`. |

## Left out

- Network I/O is not modelled: `requests.get`, `requests.head`, status codes and timeouts. Each site is an oracle from a request address to what its lookups found, with `None` for a request that raised or an error status.
- BeautifulSoup parsing and CSS/regex selector matching are library behaviour we cannot see. A page is a list of records of optional field texts, and a search page is its product anchors and link `href`s. Trustpilot's fallback selector is the second field of the page record.
- `time.sleep`, the `print` logging and the handling of `KeyboardInterrupt` have no functional content.
- The exceptions inside one card's extraction (lines 149-151 of the G2 scraper and their counterparts in the other two) cannot arise from the modelled lookups. The same holds for the outer `except` of each `scrape`, so neither is modelled. An exception escaping a scraper is the `failures` parameter of the orchestrator's environment.
- `save_to_json`, `save_results`, `json.load`/`dump`, `os.makedirs` and the argparse setup in `main` are file and console plumbing. Whether saving succeeds is the `saved` parameter of `Orchestrator.ExitCode`.
- `print_statistics` and `test_environment` in `test_utils.py` are not modelled: the first computes floating-point averages, the second probes the environment.
- `datetime.now()` is the `now` parameter: a calendar date and an hour. Minutes and seconds do not affect any result. One `now` stands for every `datetime.now()` call of a run, so a run that crosses midnight or the turn of an hour is not modelled.
- G2.TenthsRating: ratings are exact reals, not binary floating point. `float` is modelled on plain decimal notation only, without exponents, `inf` or `nan`.
- Relative.NumberRating: the rating is the digit run's exact value, not a binary float.
- Strings.Lower: lower-casing, the case-insensitive month names and the `\w` class cover ASCII letters only, not full Unicode. Whitespace, for `\s`, `str.strip` and a blank in a format, is the full `str.isspace` set.
- Strings.IsDigit: `\d`, `int()` and the digits of `%Y`, `%m` and `%d` are the ASCII digits 0-9 only. CPython also accepts other Unicode decimal digits. "٣ days ago" or "٢٠٢٣-01-05" therefore come back unchanged in the model, where Python converts them.
- DateFormats.Match: `%Y` reads exactly four ASCII digits; CPython's pattern also takes four digits, but from any script. The rare forms `strptime` accepts beyond the five formats' regular expressions are not modelled.
- JSON objects are lists of key–value pairs, looked up by the first occurrence of a key. Duplicate keys and key order in the counts map carry no meaning.
- Civil.Iso: years 1-999 are rendered zero-padded to four digits, as C libraries that pad `%Y` do. glibc writes them unpadded (`date(999, 1, 5)` gives '999-01-05'), and the strict '%Y-%m-%d' parse rejects that text. On such a build, a relative date before year 1000 (Trustpilot's "1500 years ago", say) is kept by the fail-open filter, where the model drops it as out of range. CanonicalUnchanged and OutputValid rely on the padded form.
- The G2 and Capterra `_find_company_url` query strings are not URL-encoded, which matches the code.
