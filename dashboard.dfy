/**
  The dashboard page's derived numbers and labels: the progress inside the
  current 1000-point level, the points still needed, the 7-day streak bar,
  the stats filled from the loaded profile and assessments with defaults,
  the recent community posts with an author-name fallback, and the emoji
  shown for a mood.
 */
module Dashboard {
  import opened Wrappers
  import MoodEngine

  // ---------------------------------------------------------------------
  // Level progress and the streak bar

  const PointsPerLevel: int := 1000

  /** `totalPoints % 1000` under JavaScript's `%`: the remainder of division
      truncated toward zero, which takes the sign of the dividend.  It differs
      from the total by a whole number of levels. */
  function PointsInLevel(totalPoints: int): (r: int)
    ensures totalPoints >= 0 ==> 0 <= r < PointsPerLevel
    ensures totalPoints < 0 ==> -PointsPerLevel < r <= 0
    ensures (totalPoints - r) % PointsPerLevel == 0
  {
    if totalPoints >= 0 then totalPoints % PointsPerLevel
    else -((-totalPoints) % PointsPerLevel)
  }

  /** The progress bar inside the current level, in percent. */
  function LevelProgress(totalPoints: int): (percent: real)
    ensures totalPoints >= 0 ==> 0.0 <= percent < 100.0
    ensures totalPoints >= 0 ==> percent * 10.0 == (totalPoints % PointsPerLevel) as real
    ensures totalPoints < 0 ==> -100.0 < percent <= 0.0
  {
    (PointsInLevel(totalPoints) as real / PointsPerLevel as real) * 100.0
  }

  /** "N poin lagi": the points still needed to reach the next level. */
  function PointsToNextLevel(totalPoints: int): (needed: int)
    ensures totalPoints >= 0 ==> 1 <= needed <= PointsPerLevel
    ensures totalPoints >= 0 ==>
      totalPoints + needed == (totalPoints / PointsPerLevel + 1) * PointsPerLevel
  {
    PointsPerLevel - PointsInLevel(totalPoints)
  }

  const StreakGoal: int := 7

  /** The width of the streak bar in percent, capped at a full bar. */
  function StreakWidth(streakDays: int): (percent: real)
    ensures percent <= 100.0
    ensures streakDays >= StreakGoal ==> percent == 100.0
    ensures streakDays < StreakGoal ==> percent * StreakGoal as real == streakDays as real * 100.0
    ensures streakDays >= 0 ==> percent >= 0.0
  {
    var raw := (streakDays as real / StreakGoal as real) * 100.0;
    if raw < 100.0 then raw else 100.0
  }

  // ---------------------------------------------------------------------
  // Stats

  /** A profile row; every column may be null. */
  datatype Profile = Profile(streakDays: Option<int>, totalPoints: Option<int>, level: Option<int>)

  /** An assessment as the dashboard loads it, newest first. */
  datatype AssessmentSummary = AssessmentSummary(
    id: string, createdAt: string, predictedMood: string, confidenceScore: real)

  datatype Stats = Stats(
    totalAssessments: int, streakDays: int, totalPoints: int, level: int,
    favoriteFoods: int, recentMood: string)

  /** JavaScript's `v || d` on a nullable number: null and 0 are falsy. */
  function NumberOr(v: Option<int>, d: int): (r: int)
    ensures v.Some? && v.value != 0 ==> r == v.value
    ensures v.None? || v.value == 0 ==> r == d
  {
    if v.Some? && v.value != 0 then v.value else d
  }

  /** The query's `.limit(5)` on the user's assessments, newest first. */
  const RecentLimit: nat := 5

  function Recent<T>(rows: seq<T>, limit: nat): (r: seq<T>)
    ensures r <= rows
    ensures |r| == if |rows| < limit then |rows| else limit
  {
    if |rows| < limit then rows else rows[..limit]
  }

  /** The stats card values.  `history` is the user's assessments newest
      first (or none when the query gave no data); the query keeps five. */
  function DeriveStats(profile: Option<Profile>, history: Option<seq<AssessmentSummary>>,
                       likedFoods: Option<int>): (s: Stats)
    ensures 0 <= s.totalAssessments <= RecentLimit
    ensures history.Some? ==>
      s.totalAssessments == if |history.value| < RecentLimit then |history.value| else RecentLimit
    ensures history.None? ==> s.totalAssessments == 0
    ensures s.recentMood ==
      if history.Some? && |history.value| > 0 && history.value[0].predictedMood != ""
      then history.value[0].predictedMood else "energizing"
    ensures profile.None? ==> s.streakDays == 0 && s.totalPoints == 0 && s.level == 1
    ensures profile.Some? ==>
      && s.streakDays == NumberOr(profile.value.streakDays, 0)
      && s.totalPoints == NumberOr(profile.value.totalPoints, 0)
      && s.level == NumberOr(profile.value.level, 1)
    ensures s.level != 0
    ensures s.favoriteFoods == NumberOr(likedFoods, 0)
  {
    var assessments: Option<seq<AssessmentSummary>> := if history.Some? then Some(Recent(history.value, RecentLimit)) else None;
    Stats(
      totalAssessments := if assessments.Some? then |assessments.value| else 0,
      streakDays := if profile.Some? then NumberOr(profile.value.streakDays, 0) else 0,
      totalPoints := if profile.Some? then NumberOr(profile.value.totalPoints, 0) else 0,
      level := if profile.Some? then NumberOr(profile.value.level, 1) else 1,
      favoriteFoods := NumberOr(likedFoods, 0),
      recentMood :=
        if assessments.Some? && |assessments.value| > 0 && assessments.value[0].predictedMood != ""
        then assessments.value[0].predictedMood else "energizing")
  }

  // ---------------------------------------------------------------------
  // Community posts

  datatype ProfileName = ProfileName(fullName: Option<string>)

  /** The `profiles` column of a post row: an array of joined profiles, or
      any other value (an object, null). */
  datatype ProfilesValue = ProfileArray(items: seq<ProfileName>) | NotArray

  datatype RawPost = RawPost(
    id: string, title: string, postType: string, likesCount: int, createdAt: string,
    profiles: ProfilesValue)

  datatype CommunityPost = CommunityPost(
    id: string, title: string, postType: string, likesCount: int, createdAt: string,
    fullName: string)

  const AnonymousName: string := "Anonymous"

  /** The first joined profile's name when it is a non-empty string, else "Anonymous". */
  function AuthorName(profiles: ProfilesValue): (name: string)
    ensures name != ""
    ensures name == AnonymousName || (
      && profiles.ProfileArray? && |profiles.items| > 0
      && profiles.items[0].fullName == Some(name))
    ensures (&& profiles.ProfileArray? && |profiles.items| > 0 && profiles.items[0].fullName.Some?
             && profiles.items[0].fullName.value != "")
            ==> name == profiles.items[0].fullName.value
  {
    if profiles.ProfileArray? && |profiles.items| > 0
       && profiles.items[0].fullName.Some? && profiles.items[0].fullName.value != ""
    then profiles.items[0].fullName.value
    else AnonymousName
  }

  /** Every post row becomes a post with its author's name, in order. */
  function TransformPosts(rows: seq<RawPost>): (posts: seq<CommunityPost>)
    ensures |posts| == |rows|
    ensures forall i :: 0 <= i < |rows| ==>
      && posts[i].id == rows[i].id && posts[i].title == rows[i].title
      && posts[i].postType == rows[i].postType && posts[i].likesCount == rows[i].likesCount
      && posts[i].createdAt == rows[i].createdAt
      && posts[i].fullName == AuthorName(rows[i].profiles)
  {
    if rows == [] then []
    else
      var p := rows[0];
      [CommunityPost(p.id, p.title, p.postType, p.likesCount, p.createdAt, AuthorName(p.profiles))]
      + TransformPosts(rows[1..])
  }

  /** `(posts || [])`: no data gives no posts. */
  function LoadedPosts(rows: Option<seq<RawPost>>): (posts: seq<CommunityPost>)
    ensures rows.None? ==> posts == []
    ensures rows.Some? ==> posts == TransformPosts(rows.value) && |posts| == |rows.value|
  {
    if rows.Some? then TransformPosts(rows.value) else []
  }

  const ActivityLimit: nat := 3

  /** The community activity panel shows the first three posts at most. */
  function ActivityPanel(posts: seq<CommunityPost>): (shown: seq<CommunityPost>)
    ensures |shown| <= ActivityLimit
    ensures shown <= posts
    ensures |posts| <= ActivityLimit ==> shown == posts
    ensures shown == posts[..if |posts| < ActivityLimit then |posts| else ActivityLimit]
  {
    Recent(posts, ActivityLimit)
  }

  // ---------------------------------------------------------------------
  // Mood emoji

  datatype Emoji = HighVoltage | RelievedFace | DirectHit | SleepingFace | Scales | Plate

  const EmojiMoods: seq<string> := ["energizing", "calming", "focusing", "relaxing", "balanced"]

  /** The emoji for a mood label, with the plate for any label not in the table. */
  function MoodEmoji(mood: string): (e: Emoji)
    ensures e == Plate <==> mood !in EmojiMoods
  {
    match mood
    case "energizing" => HighVoltage
    case "calming" => RelievedFace
    case "focusing" => DirectHit
    case "relaxing" => SleepingFace
    case "balanced" => Scales
    case _ => Plate
  }

  lemma MoodEmojisDistinct()
    ensures forall i, j :: 0 <= i < j < |EmojiMoods| ==>
      MoodEmoji(EmojiMoods[i]) != MoodEmoji(EmojiMoods[j])
  {
  }

  /** The prediction route labels its third mood "focused", which the table
      does not know: such an assessment shows the plate, while the route's
      other three moods have their own emoji. */
  lemma RouteMoodEmojis()
    ensures MoodEmoji(MoodEngine.Label(MoodEngine.Focused)) == Plate
    ensures forall m: MoodEngine.Mood :: m != MoodEngine.Focused ==> MoodEmoji(MoodEngine.Label(m)) != Plate
  {
    assert MoodEngine.Label(MoodEngine.Focused) !in EmojiMoods by {
      assert MoodEngine.Label(MoodEngine.Focused)[5] != "focusing"[5];
    }
  }
}
