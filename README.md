# wk_status aggregation core in Dafny

wk_status is an xbar menu-bar plugin. It reads a WaniKani learner's assignments, user
profile and summary from the WaniKani API v2, and prints the number of due reviews, the
pending lessons and how the learned items spread over the five spaced-repetition (SRS)
buckets. This project models the aggregation at the plugin's centre and proves
properties of it:

- `Stages`: `get_stage_index`, the map from an SRS stage to a bucket position. Beside
  it, `Classify` is an independent statement of the stage table (0 ignored, 1-4
  apprentice, 5-6 guru, 7 master, 8 enlightened, 9 burned, anything else invalid).
- `Levels`: `add_level` on values (`Insert`). The classification loop of `fetch` as a
  fold that stops at the first raise (`AddAll`). The total bucket size (`SumSizes`).
  Lemmas cover per-bucket deduplication, the frame, growth and what raises.
- `Reviews`: the due-review count (`DueCount`) and the lessons count (`LessonsCount`).
  Beside them are reference definitions (`DueBatches`, `TotalIds`, `LessonsTotal`).
- `Settings`: the API-token guard and the section-flag guard.
- `Responses`: which error line `get_api` prints for a failed HTTP status.
- `WkStatus`: the `WaniKani` class. Its fields `srsStage`, `reviews` and `lessons` are
  updated in place by `AddLevel`, `ClassifyPage`, `ClassifyPages`, `CountDueReviews`
  and `Fetch`; each is proved against the value-level functions above. `StageCounts`
  and `LevelTotals` are the figures `print_stages` and `print_level` show.

The network responses are inputs. `Fetch` takes the API token, the assignment pages
already fetched, the summary data and the current time as an integer.

Two readings one might expect differ from what the code does; the model follows the code:
- One might expect a subject id to sit in at most one bucket. The code only deduplicates
  within a bucket. `Levels.SameIdInTwoBuckets` shows one id ending up in two buckets.
- One might expect a batch to be due when `available_at <= now`. The code counts it only
  when `available_at < now`. `Reviews.BoundaryBatchNotDue` states the code's rule.

## Model

| member | source | states |
|---|---|---|
| `Stages.StageIndexMatchesClassify` | wk_status.15m.rb:34-43 | for every stage 1..9, get_stage_index returns the position of the bucket the stage table names, which lies in 0..4 |
| `Stages.StageIndexMonotone` | wk_status.15m.rb:34-43 | a higher stage in 1..9 never maps to an earlier bucket |
| `Stages.EveryBucketReachable` | wk_status.15m.rb:34-43 | every one of the five buckets is the image of some stage in 1..9 |
| `Stages.StageIndexOutsideRange` | wk_status.15m.rb:40-48 | outside 1..9 the else branch gives a value outside 0..4; stage 0 gives -5, which Ruby would read as the apprentice bucket, so add_level returns early on 0 |
| `Levels.Empty` | wk_status.15m.rb:30 | the initial @srs_stage has five buckets, all empty and duplicate-free |
| `Levels.Insert` | wk_status.15m.rb:46-54 | one add_level call keeps exactly five buckets on success |
| `Levels.InsertFollowsClassify` | wk_status.15m.rb:46-54 | add_level raises exactly on stages outside 0..9 (with that stage), leaves the buckets unchanged for stage 0 or an id already present, and otherwise appends the id to the end of its stage's bucket, leaving the other four unchanged |
| `Levels.InsertKeepsNoDuplicates` | wk_status.15m.rb:51-53 | after add_level, no bucket holds an id twice, given that none did before |
| `Levels.InsertGrows` | wk_status.15m.rb:50-53 | add_level only appends, and the total size grows by 0 or 1 |
| `Levels.InsertIdempotent` | wk_status.15m.rb:51-53 | repeating add_level with the same stage and id changes nothing |
| `Levels.InsertTwiceSizeOne` | wk_status.15m.rb:51-53 | inserting the same id twice into fresh buckets leaves one bucket of size 1 and a total of 1 |
| `Levels.AddAll` | wk_status.15m.rb:80-84 | the classification loop keeps five buckets whatever the assignments; each further assignment is one more add_level on the buckets so far, and after a raise nothing changes |
| `Levels.AddAllConcat` | wk_status.15m.rb:80-84 | running the loop over two lists in turn is running it over the first and then, if it did not raise, over the second from there; once it raises, nothing changes |
| `Levels.FlattenAppend` | wk_status.15m.rb:80-81 | the assignments of a sequence of pages are those of its parts, concatenated in order |
| `Levels.AddAllKeepsNoDuplicates` | wk_status.15m.rb:80-84 | the whole loop keeps every bucket duplicate-free |
| `Levels.AddAllGrows` | wk_status.15m.rb:80-84 | the loop only appends to buckets and adds at most one id per assignment |
| `Levels.AddAllFailure` | wk_status.15m.rb:80-84 | the loop raises if and only if some stage is outside 0..9, and then with the first such stage |
| `Levels.AddAllComplete` | wk_status.15m.rb:80-84 | without a raise, every assignment of stage 1..9 has its id in the bucket of its stage |
| `Levels.AddAllSound` | wk_status.15m.rb:80-84 | every id in a bucket after the loop was already there or belongs to an assignment whose stage maps to that bucket |
| `Levels.SameIdInTwoBuckets` | wk_status.15m.rb:51-53 | deduplication is per bucket: one id with stages 1 and 5 ends up in both apprentice and guru |
| `Levels.SumSizesUpdate` | wk_status.15m.rb:155-156 | replacing one bucket changes the learned total by that bucket's change in size |
| `Levels.SumSizesFive` | wk_status.15m.rb:155-156 | for five buckets the learned total is the sum of the five bucket sizes |
| `Reviews.DueCount` | wk_status.15m.rb:94-97 | the due-review count never exceeds the total number of subject ids in all batches |
| `Reviews.DueBatches` | wk_status.15m.rb:94-97 | the batches kept are exactly those available strictly before now, each as many times as it occurs in the input |
| `Reviews.DueCountIsTotalOfDueBatches` | wk_status.15m.rb:94-97 | the due-review count equals the number of ids in the batches available strictly before now |
| `Reviews.DueCountAppend` | wk_status.15m.rb:94-97 | counting over two lists of batches one after the other adds up |
| `Reviews.DueCountMonotone` | wk_status.15m.rb:94-97 | a later now never yields fewer due reviews |
| `Reviews.DueCountZero` | wk_status.15m.rb:94-97 | the count is zero if and only if every batch available before now is empty |
| `Reviews.AllDue` | wk_status.15m.rb:94-97 | when every batch is available before now, every id is due |
| `Reviews.BoundaryBatchNotDue` | wk_status.15m.rb:96 | a batch available exactly at now adds nothing |
| `Reviews.DueExample` | wk_status.15m.rb:94-97 | a batch of two ids an hour ago and one of one id an hour ahead give two due reviews |
| `Reviews.LessonsFirstEntryOnly` | wk_status.15m.rb:99 | the lessons count is the size of the first entry whatever follows it, and fails on an empty list |
| `Reviews.LessonsAtMostTotal` | wk_status.15m.rb:99 | the lessons count never exceeds the sum over all entries |
| `Reviews.LessonsNotSummed` | wk_status.15m.rb:99 | with two one-id entries the lessons count is 1 while the sum is 2 |
| `Settings.TokenConfigured` | wk_status.15m.rb:65 | a token counts as configured if and only if it is set, non-empty and not the placeholder `api_token` |
| `Settings.SectionShownExactlyTrue` | wk_status.15m.rb:130-131 | a section is shown if and only if its flag is exactly the string "true" |
| `Responses.FailureLines` | wk_status.15m.rb:109-121 | a response prints error lines if and only if it is not 2xx, and these start with the red banner and the separator |
| `Responses.UnauthorizedMentionsToken` | wk_status.15m.rb:113-114 | a 401 response's line asks the user to check the API token |
| `Responses.ServerErrorSuggestsRetry` | wk_status.15m.rb:115-116 | a 5xx response's line is the status message followed by the retry hint |
| `WkStatus.WaniKani.constructor` | wk_status.15m.rb:26-32 | a new WaniKani has five empty buckets and zero reviews |
| `WkStatus.WaniKani.AddLevel` | wk_status.15m.rb:46-54 | the new buckets are Insert of the old ones, no change when it raises, and no bucket holds duplicates |
| `WkStatus.WaniKani.ClassifyPage` | wk_status.15m.rb:81-83 | after one page, the buckets are AddAll of the old buckets over that page, and it raises exactly when AddAll does |
| `WkStatus.WaniKani.ClassifyPages` | wk_status.15m.rb:80-84 | after all pages, the buckets are AddAll over the concatenated pages, and it raises exactly when AddAll does |
| `WkStatus.WaniKani.CountDueReviews` | wk_status.15m.rb:94-97 | @reviews grows by exactly the due-review count |
| `WkStatus.WaniKani.Fetch` | wk_status.15m.rb:64-100 | an unconfigured token stops before any change; otherwise the buckets are classified, a raise leaves reviews and lessons untouched, then reviews grow by the due count and lessons become the first entry's size or the run fails on an empty lessons list |
| `WkStatus.StageCounts` | wk_status.15m.rb:129-139 | the stages section is given if and only if its flag is "true", and then lists the five bucket sizes in order |
| `WkStatus.LevelTotals` | wk_status.15m.rb:150-157 | the level section is given if and only if its flag is "true"; learned is the sum of the bucket sizes, and the denominator is learned + lessons, at least learned |
| `WkStatus.StageCountsAddUpToLearned` | wk_status.15m.rb:134-156 | the five counts of the stages section add up to the learned total of the level section |
| `WkStatus.LearnedAtMostAssignments` | wk_status.15m.rb:80-84 | starting from fresh buckets, the learned total is at most the number of assignments fetched |

## Left out

- The HTTP requests, TLS and JSON decoding of `get_api` (wk_status.15m.rb:102-126) are
  foreign library calls. Only the choice of error line on a failed status is modelled
  (`Responses`). The status classes follow Net::HTTP: 2xx success, 401 unauthorized,
  5xx server error.
- The pagination loop (wk_status.15m.rb:72-78) makes one network fetch per step and has
  no termination guarantee. `Fetch` receives the already fetched pages instead.
- `DateTime.parse` and `DateTime.now`: timestamps are integers given to the model.
- `CountDueReviews`: takes a single `now`, whereas the Ruby loop reads the clock again
  for every batch. The clock is not part of this model.
- All `puts` output, the xbar metadata suffixes, `exit(0)` and `main` are left out. They
  are host-protocol rendering and process control. `Fetch` returns an outcome instead
  of printing and exiting.
- `ENV` access: the token and the section flags are passed in as optional strings.
- `parse_user`, the user request (wk_status.15m.rb:86-88) and `print_user_info` are left
  out: they copy fields out of a JSON hash, with nothing to prove.
- The level line's `level/max_level` figures come from `parse_user` and are not modelled.
- `@lessons` is nil in Ruby until `fetch` sets it. The model starts it at 0. Every path
  that reaches `print_level` has set it first.
- `@assignments`, `@study_materials` and `@progress` are not modelled. `@assignments`
  becomes the `pages` argument, and the other two are set but never used.
- Stages and ids are integers in the model. In Ruby a nil or string stage raises
  NoMethodError at `negative?`, a float stage is bucketed by range, and an id of any
  type is stored as it is.
