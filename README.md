# Pokémon TCG card scraper — a Dafny model

The repository scrapes the Pokémon Trading Card Game card database on
pokemon.com. Its library (`index.js`) does five things:

- it builds search URLs;
- it reads a search result page into card *stubs* (`{url, image, id}`) plus the number of result pages;
- it reads a card's detail page into a card record;
- it walks all result pages;
- it can enrich each stub with its details.

Five command-line programs build on it:

- `scrape_cards.js` runs a configured search. It saves the card URLs, scrapes a sample (or all) of the details with a checkpoint every ten cards, and writes a summary.
- `scrape_from_urls.js` scrapes the details for a saved URL list.
- `scripts/merge_results.js` fills failed entries of one results file from a retry file.
- `download_images.js` downloads every card image, five at a time, skipping files that already exist.
- `verify_complete.js` reports how complete a results file is.

The model is written in Dafny with one module per concern:

- `Wrappers`: `Option`/`Result`, and JavaScript truthiness and `||` on optional strings.
- `Text`: substring search, trimming, `formatText`, decimal numerals, ASCII case.
- `Cards`: the card record and `Object.assign`.
- `CardUrl`: `cardIdFromUrl`, `makeUrl`, result-page URLs.
- `Tallies`: filter, distinct, counting and most-frequent.
- `SearchPage`: `scrapeSearchPage`.
- `CardDetail`: `scrapeCard`.
- `Paginator`: `scrapeAll`.
- `Checkpoints`: the ten-card progress saves.
- `ScrapeCards`, `ScrapeFromUrls`, `MergeResults`, `Downloads`, `VerifyComplete`: the programs.

The browser and the network are parameters of the model:

- **Fetching.** Fetching a search page or a detail page is a function from the URL to either an error message or an abstract document. The document holds the text and element data the selectors would find. `Url.resolve` and `path.join` are parameters too.
- **Files.** A program's input file is an optional parsed array. A directory is a set of paths, and a set of JSON files is a map from path to contents.
- **Clocks.** The timestamp and the current date are strings passed in.

Each loop of the source is a method with loop invariants. Each method is proved equal to a specification function, and the properties are lemmas about those functions.

How truthiness is modelled:

- A string field is `Option<string>`. `None` is an absent field or `null`, and `Some("")` is falsy.
- `a || b` on such fields is `StrOr` or `OrElse`.
- A destructuring default applies only to `None`.
- `None` also stands for both a `null` and a missing `id`. `new Set(ids)` in `verify_complete.js` (line 32) keeps `null` and `undefined` apart, so for a file that has both kinds of nameless id the model reports one duplicate more than the script prints.

## Model

| member | source | states |
|---|---|---|
| Wrappers.StrOr | index.js:144 | `a \|\| b` on optional strings: truthy iff either operand is, and it is `a` when `a` is truthy |
| Wrappers.OrElse | download_images.js:140 | `a \|\| fallback`: the value of `a` when truthy, otherwise the fallback |
| Wrappers.Override | index.js:380 | one field of `Object.assign`: a field the source record carries replaces the target's, any other field keeps the target's value |
| Cards.AssignDetails | index.js:380 | merging a detail record into a stub takes the detail's `id`, and keeps the stub's url, image and name unless the detail sets them |
| Text.FormatText | index.js:194-197 | `formatText` yields text with no line breaks and no surrounding white space; the empty string stays empty |
| Text.FormatTextIdempotent | index.js:194-197 | formatting formatted text changes nothing |
| Text.CrLfIsOneSpace | index.js:194-197 | a `\r\n` pair becomes a single space, not two |
| Text.ReplaceLineBreaksNoop | index.js:194-197 | text without line breaks is left as it is |
| Text.TrimOfTrimmed | index.js:194-197 | trimming text that has no surrounding white space is the identity |
| Text.IndexOf | scripts/merge_results.js:66 | the leftmost occurrence of a pattern, or past the end when there is none |
| Text.ContainsOccurs | index.js:227-232 | `includes` holds exactly when the pattern occurs at some position |
| Text.ParseShowNat | index.js:362 | a page number's decimal form reads back as the same number |
| Text.ShowNatInjective | index.js:362 | different page numbers have different decimal forms |
| CardUrl.CardIdSound | index.js:57-60 | a found id is `A/B` for non-empty word-character runs `A` and `B` such that the URL ends in `/A/B/` |
| CardUrl.CardIdComplete | index.js:57-60 | every URL ending in `/A/B/`, with `A` and `B` non-empty word-character runs, yields exactly `A/B` as its id |
| CardUrl.CardIdHasOneSlash | index.js:57-60 | a found id holds exactly one `/` |
| CardUrl.MakeUrl | index.js:53-55 | the URL is the base, one `?`, then the query |
| CardUrl.PageUrl | index.js:362-364 | page `i` is fetched from the search root with `i` in decimal appended, then the query |
| CardUrl.PageUrlsDistinct | index.js:362-364 | two pages share a URL only when their numbers are equal, and no later page uses the first page's URL |
| SearchPage.FirstNonEmpty | index.js:119-128 | the first selector, in priority order, that matches any tile |
| SearchPage.SelectTilesIsFirstMatch | index.js:119-128 | the tiles used are those of the first matching selector, and none is used exactly when no selector matches |
| SearchPage.LaterSelectorsIgnored | index.js:119-128 | once a selector matches, the selectors after it are never consulted |
| SearchPage.ImageSource | index.js:144 | a tile's image is `src`, else `data-src`, else `data-lazy-src`, taking the first truthy one |
| SearchPage.StubFields | index.js:132-151 | a linked tile's stub has the resolved URL, the id from that URL, and the resolved image source, or no image |
| SearchPage.ExtractStubsKeepsLinkedTiles | index.js:132-151 | there is one stub per tile with a truthy `href`, in tile order, and tiles without a link are skipped |
| SearchPage.WithLinkShorter | index.js:132-151 | there are never more stubs than tiles |
| SearchPage.FindOf | index.js:154-166 | the leftmost position where an `of <digits>` pattern starts, or past the end |
| SearchPage.CountText | index.js:155-158 | the pagination count is read from the load-more text when it is non-empty, else from the pagination text |
| SearchPage.PageCountIsLeftmost | index.js:154-166 | the page count is the number after the leftmost `of`-pattern, and 1 when no pattern occurs |
| SearchPage.PageOfRedundant | index.js:162 | the second pattern (`page … of N`) can only match where the first (`of N`) already matched, so it never decides the count |
| SearchPage.NoDigitsOnePage | index.js:154-166 | text without digits gives one page |
| SearchPage.ScrapeSearchPage | index.js:107-180 | rejects exactly when the fetch fails or the page looks blocked, with the fetch's error or the bot-detection message, and otherwise yields no more stubs than the selected tiles |
| CardDetail.Classify | index.js:227-232 | the super type is Trainer when the label mentions "Trainer", otherwise Energy when it mentions "Energy", otherwise Pokémon when it mentions "Pokémon", else unknown |
| CardDetail.Costs | index.js:276-283 | energy costs are truthy icon titles taken from the icons, never more of them than icons |
| CardDetail.CostsOfTitles | index.js:276-283 | no truthy title gives no costs; all truthy titles give all of them |
| CardDetail.BlocksSplit | index.js:260-292 | ability k is built from the k-th block with a heading and rule k is the formatted full text of the k-th block without one, both in block order, so every block gives exactly one of the two |
| CardDetail.AllNamedNoRules | index.js:260-292 | only headed blocks means no rules; only headless blocks means no abilities |
| CardDetail.Capitalize | index.js:301 | the first character upper-cased, the rest lower-cased, the length unchanged |
| CardDetail.HpOfLabel | index.js:248-250 | HP is the first run of digits in the label |
| CardDetail.HpWithoutDigits | index.js:248-250 | a label without digits gives HP 0 |
| CardDetail.LinkColourOfKey | index.js:294-304 | a first link query key `card-X`, with X non-empty and on one line, sets the colour to X capitalised |
| CardDetail.LinkColourWins | index.js:294-305 | a colour found in the links is never overridden by the cost fallback |
| CardDetail.ColourFallback | index.js:305-321 | without a link colour, the colour is the most frequent ability cost, or none if there are no costs |
| CardDetail.TrainerEnergyShape | index.js:239-242 | a trainer or energy card gets its text and no combat field |
| CardDetail.CombatShape | index.js:244-342 | a Pokémon card gets every combat field and no text |
| CardDetail.ScrapeCardSpec | index.js:199-348 | rejects exactly for a failed fetch, a blocked page, or an undefined URL, each with its own message |
| CardDetail.SuccessHasNoError | index.js:199-348 | a scraped record carries no `error` and no `scrapeFailed` field |
| CardDetail.CollectEnergies | index.js:182-192 | the loop over energy icons computes the energy list |
| CardDetail.CollectBlocks | index.js:260-292 | the loop over ability blocks computes the abilities and the rules |
| CardDetail.BuildHeader | index.js:212-237 | the method builds the header record: id, name, type, super type, set |
| CardDetail.AddCombatFields | index.js:244-342 | the method adds the combat fields, each as its specification states |
| CardDetail.ChooseColour | index.js:294-321 | the method chooses the colour by link, then by most frequent cost |
| CardDetail.ScrapeCard | index.js:199-348 | the whole detail scrape equals its specification function |
| Tallies.Tally | verify_complete.js:50-55 | the counts list each distinct key once with its number of occurrences |
| Tallies.TallySum | verify_complete.js:50-55 | the counts add up to the number of keys counted |
| Tallies.TallyPositive | verify_complete.js:50-55 | every listed key has a count of at least one, and every counted key is listed |
| Tallies.TallySnocSeen | verify_complete.js:52 | counting a key already present adds one to its entry and changes nothing else |
| Tallies.TallySnocNew | verify_complete.js:52 | counting a key not yet present appends it with count 1 |
| Tallies.TallySnoc | verify_complete.js:50-55 | counting one more key increments its entry, or appends it with count 1 when it is new |
| Tallies.MostFrequent | index.js:314-319 | the chosen cost occurs in the list, and no cost occurs more often |
| Tallies.MostFrequentSeenFirst | index.js:314-319 | among equally frequent costs, the first one seen wins |
| Tallies.Distinct | verify_complete.js:31-36 | the distinct ids are duplicate-free and hold exactly the ids present |
| Tallies.DistinctLength | verify_complete.js:31-36 | there are no more distinct ids than ids, and the same number exactly when none repeats |
| Tallies.FilterComplement | scripts/merge_results.js:51-52 | the entries passing a test and those failing it add up to the whole list |
| Tallies.FilterInOrder | verify_complete.js:76-78 | a filter keeps exactly the entries that pass, in their original order |
| Paginator.ScrapeLaterPages | index.js:362-371 | the loop over pages 2..numPages computes the concatenated stubs, or the first error |
| Paginator.LaterPagesAbort | index.js:362-371 | the later pages fail exactly when one of pages 2..numPages fails |
| Paginator.LaterPagesFirstError | index.js:362-371 | the error reported is the first failing page's |
| Paginator.LaterPagesPrefix | index.js:362-371 | the stubs gathered up to an earlier page are a prefix of those gathered up to a later page |
| Paginator.LaterPagesStep | index.js:362-371 | each successful page appends exactly its own stubs |
| Paginator.DetailPass | index.js:375-386 | the detail pass keeps one entry per stub, each enriched on its own |
| Paginator.ScrapeDetails | index.js:375-386 | the detail loop computes the detail pass |
| Paginator.EnrichKeepsUrl | index.js:377-384 | enriching never changes a stub's URL; a stub whose scrape throws is unchanged; a success takes the scraped name |
| Paginator.MissingUrlUnchanged | index.js:377-384 | a stub without a URL stays as it is |
| Paginator.ScrapeAll | index.js:350-393 | `scrapeAll` equals its specification function |
| Paginator.ScrapeAllAborts | index.js:350-393 | `scrapeAll` rejects exactly when the first page or one of pages 2..numPages fails |
| Paginator.ScrapeAllShape | index.js:350-393 | the result is the first page's stubs followed by the later pages', and the detail pass keeps that length |
| Checkpoints.SnapshotsSnoc | scrape_cards.js:110-115 | one more processed card saves a snapshot exactly when it is a tenth card or the last one |
| Checkpoints.SnapshotsArePrefixes | scrape_cards.js:110-115 | every save is a prefix of the final results, and each save strictly extends the one before |
| Checkpoints.SnapshotsShorter | scrape_cards.js:110-115 | no save is longer than the results |
| Checkpoints.LastSnapshotIsWhole | scrape_from_urls.js:75-78 | after the last card the save holds all the results |
| Checkpoints.SnapshotLengths | scrape_from_urls.js:75-78 | the number of saves is one per ten cards, plus one for an incomplete last ten, and save `j` holds `min(10(j+1), n)` entries |
| ScrapeCards.Validate | scrape_cards.js:38-49 | a configuration is rejected exactly when its name is falsy or its query is missing; otherwise the listed defaults apply |
| ScrapeCards.SliceTo | scrape_cards.js:80 | `slice(0, end)` gives a prefix: `end` entries, all of them when `end` is too large, and counted from the end when `end` is negative |
| ScrapeCards.SampleSelection | scrape_cards.js:76-84 | the cards scraped are a prefix of the search results: all with `scrapeAll`, the first `sampleSize` otherwise, none for a zero sample |
| ScrapeCards.DefaultSample | scrape_cards.js:42-49 | a configuration with only a name and a query scrapes the first ten cards, or all of them when there are fewer |
| ScrapeCards.DetailEntries | scrape_cards.js:96-108 | one detail entry per sampled card, in order |
| ScrapeCards.EntriesMarkFailures | scrape_cards.js:96-108 | a failed card is saved as its stub with the error message; a success carries no error |
| ScrapeCards.DetailStep | scrape_cards.js:87-116 | one card more extends the entries by that card's entry and adds one to exactly one of the success and failure counts, according to the scrape's outcome |
| ScrapeCards.DetailLoop | scrape_cards.js:87-116 | the loop computes the entries, counts successes and failures as the cards whose scrape succeeds or fails, and saves the checkpoint snapshots |
| ScrapeCards.ScrapeOne | scrape_cards.js:96-108 | one card's entry and whether it succeeded |
| ScrapeCards.Run | scrape_cards.js:36-145 | the program equals its specification function |
| ScrapeCards.RunFailures | scrape_cards.js:38-40 | a bad configuration fails before any fetch; a valid one fails exactly when the search fails |
| ScrapeCards.RunShape | scrape_cards.js:66-140 | the summary's totals match the URL and detail lists, the counters add up, every save is a prefix of the details and the last holds them all, and a details file is named exactly when details were scraped |
| ScrapeFromUrls.DetailEntries | scrape_from_urls.js:59-72 | one entry per input card, in order |
| ScrapeFromUrls.MarkedExactlyFailures | scrape_from_urls.js:59-72 | the entries marked `scrapeFailed` are exactly the failures, each keeping the rest of its input card, and their number is the failure count |
| ScrapeFromUrls.ScrapeOne | scrape_from_urls.js:59-72 | one card's entry and whether it succeeded |
| ScrapeFromUrls.DetailStep | scrape_from_urls.js:52-85 | one URL more extends the entries by its entry and adds one to exactly one of the success and failure counts, according to the scrape's outcome |
| ScrapeFromUrls.DetailLoop | scrape_from_urls.js:52-85 | the loop computes the entries, the success and failure counts, and the checkpoint saves |
| ScrapeFromUrls.ScrapeFromUrlsFile | scrape_from_urls.js:10-110 | the program equals its specification function |
| ScrapeFromUrls.FromUrlsFailures | scrape_from_urls.js:14-27 | the program fails exactly without a file argument or with a missing file, with the usage or the not-found message |
| ScrapeFromUrls.FromUrlsShape | scrape_from_urls.js:52-110 | one entry per input card, the counters add up to the total, the failure count is the number of marked entries, every save is a prefix, and the final save repeats the last checkpoint |
| MergeResults.BuildRetryMap | scripts/merge_results.js:32-37 | the loop computes the retry map |
| MergeResults.RetryMapEntries | scripts/merge_results.js:32-37 | every map entry is a retry card with a truthy name, stored under its own id |
| MergeResults.RetryMapComplete | scripts/merge_results.js:32-37 | every retry card with a truthy id and name has its id in the map |
| MergeResults.RetryMapLaterWins | scripts/merge_results.js:32-37 | of several retry cards with one id, the last one is kept |
| MergeResults.Merge | scripts/merge_results.js:42-48 | the merged list keeps the original's length and order, one entry per original card |
| MergeResults.MergeReplacesOnlyFailures | scripts/merge_results.js:42-48 | named entries are never replaced; a nameless one is replaced exactly when the map has its id, and then by a named retry card with that id |
| MergeResults.StillFailedIffNoRetry | scripts/merge_results.js:42-52 | an entry stays nameless exactly when it was nameless and no eligible retry card has its id |
| MergeResults.MergeIdempotent | scripts/merge_results.js:42-48 | merging the result again with the same retry file changes nothing |
| MergeResults.MergeNeverLosesNames | scripts/merge_results.js:42-51 | the number of named entries never drops |
| MergeResults.MergeFiles | scripts/merge_results.js:7-73 | the program equals its specification function |
| MergeResults.MergeFailures | scripts/merge_results.js:7-26 | the program fails exactly with fewer than two arguments or a missing input file, with the usage or `ENOENT` message |
| MergeResults.MergeCounts | scripts/merge_results.js:51-69 | the counts cover the merged list; the output file holds the merged list unless the still-failed list is saved under the same name; the still-failed file, written only when something failed, holds exactly the nameless entries; the files present afterwards are the old ones plus these two, and every other file is unchanged |
| MergeResults.StillFailedNameOfJson | scripts/merge_results.js:66 | for a name ending in its only `.json`, the still-failed file is the name with `_still_failed.json` in place of `.json` |
| MergeResults.StillFailedOverwritesOutput | scripts/merge_results.js:60-68 | an output name without `.json` makes the still-failed list overwrite the merged file |
| Downloads.DownloadImage | download_images.js:26-54 | one download changes only its destination, leaves a file exactly when the URL was refused at once or a response arrived (and streamed cleanly if it was a 200), and succeeds exactly on a clean 200; it fails with the thrown or request error's own message, `HTTP <status>` for a status other than 200, or the write error's message |
| Downloads.BatchesStep | download_images.js:65-66 | each batch is the next `batchSize` downloads, or fewer at the end |
| Downloads.BatchesFlatten | download_images.js:65-66 | the batches, concatenated, are the download list |
| Downloads.BatchesShape | download_images.js:65-66 | every batch but the last holds exactly `batchSize` downloads, none is empty, and there are none for no downloads |
| Downloads.BatchesCount | download_images.js:65-66 | the number of batches is the download count divided by the batch size, rounded up |
| Downloads.TwentyThreeInFives | download_images.js:65-66 | 23 downloads in batches of 5 give five batches, the last holding 3 |
| Downloads.ItemStepEffect | download_images.js:72-95 | each download is counted exactly once, as skipped, succeeded or failed; a failure adds one error entry; a file present at batch start is skipped untouched |
| Downloads.SkipMakesNoRequest | download_images.js:74-78 | a skipped download does not depend on the network |
| Downloads.RunBatch | download_images.js:72-95 | the loop over one batch computes its specification |
| Downloads.DownloadInBatches | download_images.js:57-106 | the loop over all batches computes its specification |
| Downloads.DownloadCounts | download_images.js:57-106 | success + failed + skipped is the number of downloads, with one error entry per failure |
| Downloads.RerunAfterCleanRun | download_images.js:74-78 | repeating a run that had no failure downloads nothing and leaves the directory unchanged |
| Downloads.HttpFailureIsNeverRetried | download_images.js:28-36 | a non-200 response, or a URL `http(s).get` refuses by throwing, fails with `HTTP <status>` or the thrown message but leaves its empty file behind, so the next run skips it |
| Downloads.TransferFailureIsRetried | download_images.js:38-52 | a request `error` event or a write error fails with that error's message, adds the entry `{card: id, url, error}`, and removes the file, so the next run tries again |
| Downloads.Sanitize | download_images.js:140 | every character outside `[a-zA-Z0-9_-]` becomes `_`, the others stay, the length is kept |
| Downloads.SafeId | download_images.js:140 | a file stem uses only safe characters and is as long as the id, or `card_<n>` without one |
| Downloads.Extension | download_images.js:141 | an image extension at the URL's end is kept as written, otherwise `.png` |
| Downloads.ExtensionOf | download_images.js:141 | a URL ending in `.png`, `.jpg`, `.jpeg` or `.gif` in any case keeps that extension |
| Downloads.DownloadList | download_images.js:131-151 | every download is built from a card with a truthy image, numbered by its position, and the numbers increase |
| Downloads.DownloadListComplete | download_images.js:135-151 | every card with a truthy image has a download, the one numbered after the card's position |
| Downloads.MissingListInOrder | download_images.js:135-138 | the missing-image list holds exactly the cards without a truthy image, in card order, each labelled by its id or by `card <i+1>` |
| Downloads.ListsPartition | download_images.js:131-151 | the download list and the missing-image list together have one entry per card |
| Downloads.PrepareDownloads | download_images.js:131-151 | the loop computes the download list and the missing list |
| Downloads.DownloadAllImages | download_images.js:108-198 | the program equals its specification function |
| Downloads.DownloadAllReport | download_images.js:108-198 | the error log is written exactly when a download failed, and the totals add up to the cards read |
| VerifyComplete.CountOne | verify_complete.js:52 | one counting step: with the counts of the keys so far, the result is the counts of those keys followed by the new key |
| VerifyComplete.CountBy | verify_complete.js:50-55 | the counting loop computes the tally of the cards' truthy keys |
| VerifyComplete.KeysOfCount | verify_complete.js:50-55 | the number of counted keys is the number of cards with a truthy key |
| VerifyComplete.InsertByCountSorted | verify_complete.js:58 | inserting into a list ordered by descending count keeps it ordered and adds exactly one entry |
| VerifyComplete.SortByCountSorted | verify_complete.js:58 | sorting by count orders the entries by descending count, as a permutation of them |
| VerifyComplete.SumCountsSort | verify_complete.js:58 | sorting does not change the sum of the counts |
| VerifyComplete.BreakdownFacts | verify_complete.js:50-71 | the per-type and per-set breakdowns list every key once, ordered by descending count, and their counts add up to the cards having that key |
| VerifyComplete.IdsOf | verify_complete.js:31 | one id per card, in order |
| VerifyComplete.Verify | verify_complete.js:1-106 | the program equals its specification function |
| VerifyComplete.ReportCounts | verify_complete.js:15-36 | named and nameless cards add up to the total; the duplicate count is never negative and is zero exactly when no id repeats; one missing-name id per nameless card |
| VerifyComplete.MissingNamesInOrder | verify_complete.js:76 | the missing-name list holds the ids of exactly the nameless cards, in card order |

## Left out

- The browser: launching, closing in the `finally` block, user agents, waiting for selectors, scrolling, page delays and `Math.random` jitter. A fetch is a deterministic function from URL to document or error.
- HTML parsing and CSS selectors. A document is a record of the texts and element data the selectors would find.
- HTTP and streaming in `download_images.js`. A download is one answer: a URL refused by a synchronous throw, a request `error` event, a status, or a write error.
- Concurrency: the five downloads of a batch run one after another in the model. Two downloads to the same path within one batch cannot race here. In the source, the entries of `download_errors.json` within a batch are in the order the downloads finish, which a run does not fix; in the model they are in item order.
- The asynchronous unlink after a failed download is modelled as immediate.
- Console output: progress lines, percentages, durations, estimated times, success rates, sample-card printing and the truncated id lists.
- The reporting tail of `scrape_from_urls.js` after the summary is written. `avgTime` is declared with `const` at line 80 inside the checkpoint `if` block, so it is out of scope at line 118; every run that gets this far throws a ReferenceError there, after the summary is saved, and ends in the `catch` with `process.exit(1)` (lines 121-124). `ScrapeFromUrls.ScrapeFromUrlsFile` returns `Ok` with the saved files for such a run, so it does not model that final exit status.
- Process exit codes: a program that calls `process.exit(1)` returns an `Err` with its message.
- `mkdir` of the results and image directories.
- JSON parsing and printing: files are their parsed contents.
- `path.join` and `Url.resolve`: these are function parameters. The one exception is the URL of page `i`, which is the search root with the page number appended, as resolving a bare number against a root ending in `/` gives.
- Timestamps are string parameters: `toISOString` and its character replacement are not modelled.
- String lengths count characters (code points), while JavaScript's `length` counts UTF-16 code units. The `html.length` thresholds of the blocked-page checks (`index.js` lines 112 and 204) therefore see a page with characters outside the Basic Multilingual Plane as shorter than JavaScript does. The same holds for the file-name sanitising at `download_images.js` line 140: without the `u` flag the regex replaces each UTF-16 code unit, so a character outside that plane becomes `__` in JavaScript but `_` in `Downloads.Sanitize`.
- Unicode case mapping: upper- and lower-casing and the case-insensitive extension match cover ASCII letters only.
- Object key order for integer-like keys: counting keeps first-seen order, which is what JavaScript does for the type, set and energy names these programs count.
- A configuration's `query` is its serialised query string. Any present query is truthy, as an object is. `null` values in a configuration are not modelled apart from absent ones.
- `sampleSize` is an integer; fractional values are not modelled.
- The legacy scripts under `legacy/` are not part of this model.
- The library's `module.exports` wiring at the end of `index.js` is not modelled.
- Downloads.BatchesCount: states the count of batches as the ceiling bounds `n·b − n < len ≤ n·b`, which determine it, rather than as a closed formula.
- VerifyComplete.SortByCountSorted: states an ordering by descending count and a permutation; it does not state that `Array.prototype.sort` keeps equally counted entries in their first-seen order.
