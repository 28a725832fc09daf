# NutriMood prediction endpoint, like toggle and dashboard figures in Dafny

This project models the decision logic of the NutriMood web application:

- **The mood prediction route** (`POST /api/ml/predict`). Its gate accepts a request only when all four
  nutrition levels (calorie, protein, fat, carbohydrate) are integers from 0 to 3. Its classifier is a
  priority cascade of three strict-threshold rules, where the first match wins and `balanced` is the
  default. It reports confidence 0.85 and recommends "Nasi Goreng". It saves the assessment, and then
  the recommendations linked to it, for a logged-in user. These saves are best effort: an error the
  database returns is only logged.
- **The community feed** (`/community`). It covers the like/unlike toggle over the set of liked post
  ids and the list of posts, the 200-character content preview, the type/category look-ups for colour
  classes and icons, and the five-star row of a review.
- **The dashboard** (`/dashboard`). It covers progress within a 1000-point level, the points still
  needed, the capped 7-day streak bar, the stats card with its defaults, the recent posts with the
  "Anonymous" author fallback, the three-post activity panel and the mood emoji.

Files:

- `wrappers.dfy` defines `Option`.
- `mood_engine.dfy` defines the gate, the classifier, the classifier's rule table read first-match,
  and the model response.
- `predict_endpoint.dfy` defines the request handler over a `Store` class. What the database does
  with each insert (take it, return an error, or throw) is an input of the request, the verdict.
- `community.dfy` defines the `CommunityPage` class with `HandleLikePost`, and the rendering helpers.
- `dashboard.dfy` defines the dashboard's derived values.

Notes on behaviour as written:

- The dashboard's emoji table knows `focusing`, but the prediction route emits `focused`.
  `Dashboard.RouteMoodEmojis` proves that such an assessment shows the fallback plate. Elsewhere in
  the repository, the trained model's label list uses `focusing`. This is therefore a vocabulary
  clash between the two producers of mood labels, and the model keeps both as written.
- The dashboard's author name is taken only when the joined `profiles` value is an array. Any other
  value, such as an object, gives "Anonymous" (`Dashboard.AuthorName`).
- `profile.level || 1` turns a stored level of 0 into 1. Likewise `streak_days`, `total_points` and
  the liked-food count fall back to 0 when null, and an empty mood string falls back to "energizing".
- In the like handler, an error *returned* by a backend call is ignored, and the local state is
  still updated. Only a thrown exception leaves the page unchanged.
- A review rated 0 draws no star row, but `post.type === "review" && post.rating && …` then evaluates
  to the number 0, which React renders as a stray "0" (`Community.RatingRow` models only the row).
- JavaScript's `%` truncates toward zero. Negative point totals therefore give a progress in
  (-100, 0], which the model states explicitly (`Dashboard.PointsInLevel`, `Dashboard.LevelProgress`).

## Model

| member | source | states |
|---|---|---|
| `MoodEngine.Validate` | src/app/api/ml/predict/route.ts:52-73 | A body is accepted iff each of the four fields is a number with no fractional part between 0 and 3. The accepted levels equal the fields. Every rejection carries exactly "All nutrition levels must be integers between 0 and 3". |
| `MoodEngine.ValidateRejectsExamples` | src/app/api/ml/predict/route.ts:55-72 | A level of 4, a level of -1, a level of 1.5 and a missing field are each rejected with that message, and a level of 3 is accepted. |
| `MoodEngine.LabelInjective` | src/app/api/ml/predict/route.ts:13-23 | The four mood labels are pairwise different, so a stored label identifies its mood. |
| `MoodEngine.PredictMood` | src/app/api/ml/predict/route.ts:13-23 | `energizing` iff calorie > 2 and protein > 1. `calming` iff rule 1 fails and fat > 2 and carb > 2. `focused` iff rules 1-2 fail and protein > 2 and carb < 2. `balanced` iff none of the three holds. |
| `MoodEngine.FirstMatchIsEarliest` | src/app/api/ml/predict/route.ts:16-23 | For any rule list, first-match evaluation yields the mood of the earliest rule that fires. |
| `MoodEngine.FirstMatchFallback` | src/app/api/ml/predict/route.ts:13-23 | When no rule of the list fires, first-match evaluation yields the default mood. |
| `MoodEngine.CascadeIsFirstMatch` | src/app/api/ml/predict/route.ts:16-23 | The classifier's if/else-if chain equals the three-rule table (calorie>2 ∧ protein>1, fat>2 ∧ carb>2, protein>2 ∧ carb<2) read in order, first match wins, with `balanced` as default. |
| `MoodEngine.StrictBoundaries` | src/app/api/ml/predict/route.ts:17-22 | A level equal to a rule's bound never fires that rule. For example, calorie = 2 is never `energizing`, and carb = 2 is neither `calming` nor `focused`. |
| `MoodEngine.PredictMoodExamples` | src/app/api/ml/predict/route.ts:17-23 | (3,2,3,3) is `energizing` although the calming test holds. (2,2,0,0) is `balanced`. (0,3,0,1) is `focused`. (0,0,0,0) is `balanced`. |
| `MoodEngine.CallMLModel` | src/app/api/ml/predict/route.ts:7-42 | The predicted mood is the cascade's, with confidence 0.85 ∈ (0,1]. The recommendation list is exactly one "Nasi Goreng" (350/12/15/45, similarity 0.9). It is non-empty and ordered by similarity, each score lies in [0,1], and each `mood_category` equals the predicted mood. |
| `PredictEndpoint.ExpectedResponse` | src/app/api/ml/predict/route.ts:44-140 | Status 500 with "Internal server error during ML prediction" iff the body cannot be read or is null. Status 400 with the level message iff the gate rejects. Status 200 iff the gate accepts, and then the body is the model's result unchanged. |
| `PredictEndpoint.RecommendationRows` | src/app/api/ml/predict/route.ts:109-120 | One row per recommendation, in order. Each row copies name, macros, mood label and similarity, and carries the assessment id and the user id. |
| `PredictEndpoint.Store.InsertAssessment` | src/app/api/ml/predict/route.ts:90-102 | The call returns the new id iff the database accepts the row, and the returned error iff it rejects it. On acceptance, exactly one row is appended: the four levels, the mood label and the confidence, under the user and that id, and the counter moves on by one. On a rejection or an exception, nothing is stored. The recommendations table is untouched. |
| `PredictEndpoint.Store.InsertRecommendations` | src/app/api/ml/predict/route.ts:122-124 | The call reports the database's verdict. The batch is appended as a whole when accepted and not at all otherwise. The assessments table and the counter are untouched. |
| `PredictEndpoint.RequestCallsShape` | src/app/api/ml/predict/route.ts:90-131 | A request makes exactly one assessment insert, first, and a second call, the recommendation batch, iff the assessment was accepted. Some call throws iff the assessment insert throws, or it is accepted and the batch throws. |
| `PredictEndpoint.CallLogEntries` | src/app/api/ml/predict/route.ts:104-139 | A call the database accepts logs nothing. A rejected call logs exactly one entry: its error under "Error saving assessment:" for the assessment insert, under "Error saving recommendations:" for the batch. An exception logs exactly the handler's "ML API Error:" entry. |
| `PredictEndpoint.Post` | src/app/api/ml/predict/route.ts:44-141 | The response, the log and the new tables are functions of the body, the user and the two verdicts. Without a user, or for a body the gate does not pass, the tables and the counter are unchanged. With a user and a passed body, exactly the assessment row for those levels and that user is added iff its insert is accepted. The recommendation rows, one per food linked to the new id, are added iff both inserts are accepted. The response is the generic 500 iff the assessment insert throws, or it is accepted and the batch throws; otherwise it is `ExpectedResponse(body)`, so a rejected insert keeps the 200. The log is the per-call entries of `RequestCalls` in order, so a rejection adds only its "Error saving ..." entry. `auth.getUser` is taken never to throw. |
| `Community.ToggledLikes` | src/app/community/page.tsx:165-173 | `postId` is in the new set iff it was not in the old one, and every other id keeps its membership. |
| `Community.LikeDelta` | src/app/community/page.tsx:179 | The counter moves by -1 for an unlike and by +1 for a like. |
| `Community.BumpLikes` | src/app/community/page.tsx:176-182 | The list keeps its length and order. Each post with the given id has its `likes_count` moved by the delta and nothing else changed, and every other post is unchanged. |
| `Community.BumpLikesUndone` | src/app/community/page.tsx:176-182 | Moving the counters by `d` and then by `-d` restores the list. |
| `Community.BumpLikesChangesOnlyThatPost` | src/app/community/page.tsx:176-182 | With distinct post ids, exactly the toggled post's counter moves, and all other posts are equal to before. |
| `Community.LikeToggled` | src/app/community/page.tsx:144-182 | After a toggle that did not throw, the liked set flips `postId` only. The matching post's counter goes down by 1 if it was liked and up by 1 otherwise, and all other posts, the length and the order are kept. |
| `Community.LikeTwiceRestores` | src/app/community/page.tsx:144-182 | Two toggles of the same post, both without exceptions, restore the original liked set and counters. |
| `Community.CommunityPage.HandleLikePost` | src/app/community/page.tsx:138-187 | The page toggles iff there is a user and no backend call throws, and the new state is then `LikeToggled` of the old state. With no user, neither `likedPosts` nor `posts` changes, and the login toast is raised. When a call throws, neither changes, and the failure toast is raised. |
| `Community.ContentPreview` | src/app/community/page.tsx:454-460 | The shown text is the prefix of the content of length min(200, length). The "...baca lebih lanjut" marker appears iff the content is longer than 200, and shorter content is shown whole. |
| `Community.PostTypeColor` | src/app/community/page.tsx:206-221 | Exactly the strings other than the five post types get the gray default class. |
| `Community.PostTypeColorsDistinct` | src/app/community/page.tsx:206-221 | The five post types get five different colour classes. |
| `Community.PostTypeIcon` | src/app/community/page.tsx:189-204 | Exactly the strings other than the five post types get the `Users` icon. |
| `Community.PostTypeIconsDistinct` | src/app/community/page.tsx:189-204 | The five post types get five different icons. |
| `Community.ChallengeIcon` | src/app/community/page.tsx:223-234 | Exactly the categories other than nutrition/mood/community get the `Award` icon. The three categories get Target, Heart or Users. |
| `Community.ChallengeIconsDistinct` | src/app/community/page.tsx:223-234 | No two of the three challenge categories share an icon. |
| `Community.RatingStars` | src/app/community/page.tsx:470-477 | Exactly 5 stars are drawn, and star i is filled iff i < rating. |
| `Community.RatingRow` | src/app/community/page.tsx:464-477 | The star row is drawn iff the post is a review with a present, non-zero rating, and it is then `RatingStars(rating)`. |
| `Community.FilledPrefix` | src/app/community/page.tsx:470-477 | A row whose entries are set exactly below index k has min(max(k,0), length) entries set. |
| `Community.WholeRatingFillsThatManyStars` | src/app/community/page.tsx:470-477 | A whole rating k in 0..5 fills exactly k stars. |
| `Dashboard.PointsInLevel` | src/app/dashboard/page.tsx:153 | `totalPoints % 1000` under JavaScript's truncating remainder: it differs from the total by a whole number of 1000-point levels and lies in [0,1000) for a non-negative total and in (-1000,0] for a negative one, which fixes its value for every total. |
| `Dashboard.LevelProgress` | src/app/dashboard/page.tsx:152-156 | For non-negative totals, the level progress is `(total % 1000) / 10` percent, and so lies in [0,100). Negative totals give (-100,0]. |
| `Dashboard.PointsToNextLevel` | src/app/dashboard/page.tsx:296 | For non-negative totals, the points still needed lie in [1,1000], and adding them reaches the next multiple of 1000 exactly. |
| `Dashboard.StreakWidth` | src/app/dashboard/page.tsx:523 | The streak bar is never wider than 100%. It is exactly 100% from 7 days on, and streak/7·100 below that, which is non-negative for non-negative streaks. |
| `Dashboard.NumberOr` | src/app/dashboard/page.tsx:106-111 | `v \|\| d` on a nullable number gives `v` when it is present and non-zero, and `d` otherwise. |
| `Dashboard.Recent` | src/app/dashboard/page.tsx:84 | The limited query result is a prefix of the rows of length min(limit, count). |
| `Dashboard.DeriveStats` | src/app/dashboard/page.tsx:79-112 | totalAssessments is the loaded count (at most 5), or 0 without data. recentMood is the newest assessment's non-empty mood, else "energizing". Streak and points default to 0, and level to 1 (never 0). favoriteFoods defaults to 0. |
| `Dashboard.AuthorName` | src/app/dashboard/page.tsx:129-134 | The name is the first joined profile's non-empty name when `profiles` is an array, and "Anonymous" otherwise. It is never empty. |
| `Dashboard.TransformPosts` | src/app/dashboard/page.tsx:115-136 | The transform keeps length and order. Each post keeps id, title, type, likes_count and created_at, and takes `AuthorName` of its profiles. |
| `Dashboard.LoadedPosts` | src/app/dashboard/page.tsx:115 | No data gives no posts. Otherwise the posts are `TransformPosts` of the rows, one per row. |
| `Dashboard.ActivityPanel` | src/app/dashboard/page.tsx:476 | The activity panel shows exactly the first min(3, count) posts. |
| `Dashboard.MoodEmoji` | src/app/dashboard/page.tsx:158-167 | Looked up among the table's own keys, exactly the labels other than energizing/calming/focusing/relaxing/balanced get the plate fallback. |
| `Dashboard.MoodEmojisDistinct` | src/app/dashboard/page.tsx:158-167 | The five known labels get five different emoji. |
| `Dashboard.RouteMoodEmojis` | src/app/dashboard/page.tsx:158-167 | The route's `focused` label gets the plate fallback. The route's other three moods get their own emoji. |

## Left out

- Network, authentication and database access are abstract inputs.
  - `auth.getUser` is an optional user id, and the call is taken never to throw.
  - Query results are parameters.
  - The outcome of each write is chosen nondeterministically.
  - Database-generated ids come from a counter.
  - How the filter and search strings are interpolated into the community feed query is not modelled.
- Float semantics are not modelled. JSON numbers are exact reals, so precision loss while parsing
  (for example, 3.0000000000000001 read as 3) and values that overflow to Infinity are not
  represented. Display rounding (`Math.round`, `toFixed`) and date/locale formatting are also left out.
- PredictEndpoint.Post: the log entries keep the source's fixed context strings. Their detail part
  is a placeholder for the error object the source prints. A write that throws is taken to have
  stored nothing.
- Community.CommunityPage.HandleLikePost: the rows and counters in the backend (`post_likes` and the
  increment/decrement procedures) are not modelled, only the page's local state. The two awaited
  calls are collapsed into one input saying whether one of them throws. Concurrent clicks, and the
  functional `setState` reading a newer `prev` than the `isLiked` snapshot, are not modelled. The
  handler's `console.error("Error toggling like:", …)` on a failure is not modelled; only the
  failure toast is.
- Community.ContentPreview: `substring` counts UTF-16 code units, while the model counts characters.
- The initial loads (`loadCommunityData`, `loadUserLikes`, `loadDashboardData`'s queries), React
  hooks, loading flags, JSX markup and the remaining CSS class strings are UI plumbing outside the
  decision logic.
- The avatar initial and author fallback inside the community feed markup are not modelled, and
  neither is the dashboard greeting's first name.
- `src/scripts/ml_inference.py` is not part of this model. It wraps a trained network whose argmax
  over floating-point output cannot be stated here, and its 0..3 integer check repeats the route's
  gate.
- `src/components/NutritionDemo.tsx` is not part of this model. It holds UI state, and its helpers
  live in a module that is not available.
- The emoji are named by an enumeration rather than given as code points.
- Dashboard.MoodEmoji: the table is a plain object literal, so a label naming a property inherited
  from `Object.prototype` ("constructor", "toString", "valueOf", "hasOwnProperty", "__proto__" and
  the like) finds that truthy property instead of the plate. The model gives such labels the plate,
  as it does any label outside the five keys.
