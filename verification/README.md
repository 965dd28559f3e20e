# Spam-likeness scoring and the kigurumi timeline, in Dafny

This project models two pure decision cores of a Misskey fork's backend.

- `SpamDefendService` decides whether an incoming activity is spam-like. It
  adds three integer sub-scores and compares the total against a threshold
  of 50:
  - a user score (0..40) from the actor's profile;
  - an instance score (0..30) from the origin server's record;
  - an activity score (0..20) from the shape of a post or a reaction.

  A zero user score short-circuits the verdict to `false`.
- `KigurumiTimelineService` decides whether a note enters the kigurumi
  timeline. The note must be visible beyond `home`, carry at least one file,
  and be tagged `kigurumi` or `着ぐるみ`. Pushing a note onto the timeline
  appends its id exactly when that predicate holds.

Modules:

- `Wrappers` (`wrappers.dfy`): `Option`, standing for a `null`/`undefined` field.
- `Text` (`text.dfy`): the two string tests. `Includes` is JavaScript's
  `String.prototype.includes`. `HasJapaneseScript` is the character class
  `[ぁ-んァ-ヶー一-龯]`, written as explicit code-point ranges.
- `SpamDefend` (`spam_defend.dfy`): the records, the three scorers, the
  verdict, and the properties relating them.
- `KigurumiTimeline` (`kigurumi_timeline.dfy`): the admission predicate, the
  push, and what a run of pushes leaves on the timeline.

The environment is made explicit:

- `userEntityService.pack` becomes a parameter `pack: string -> PackedUser`.
- `instanceService.fetch` becomes a parameter `fetch: string -> Instance`.
- `Env` carries two clock readings and the spam-era instant
  `new Date('2024/2/10')`. The user scorer reads `Date.now()` after the
  profile lookup (SpamDefendService.ts:54). The instance scorer reads it
  again after the instance lookup (SpamDefendService.ts:94). The two readings
  may differ, so they are separate fields. The spam-era date is parsed in the
  server's local time zone, so it is a parameter and not a constant.
- All instants are integers in milliseconds.

Because the fetchers are parameters, "is never fetched" can be stated as "the
result is the same whatever the fetcher answers".

Facts about the code that the model reproduces:

- The recent-observation window is 2 days (SpamDefendService.ts:20).
- An absent `avatarUrl` adds nothing, because `undefined?.includes(...)` is
  falsy (SpamDefendService.ts:57).
- An absent `name` never equals the username, so it adds nothing
  (SpamDefendService.ts:60).
- An absent user `description` adds nothing. Only a present, empty one
  scores (SpamDefendService.ts:63).
- An absent instance `description` adds 20 (SpamDefendService.ts:100).
- An activity whose kind is neither `create` nor `like` scores 0
  (SpamDefendService.ts:141).
- The instance score is computed for a host passed to `isSpamlike`
  separately from the user (SpamDefendService.ts:31, 35).
- A zero user score returns `false` before the instance and activity scores
  are computed (SpamDefendService.ts:33).

Like JavaScript's `!host`, the model treats an empty host string as local,
the same as `null`.

All scores are multiples of 5. So no total lies strictly between 50 and 55.
A total of 50 is not spam-like, and the smallest spam-like total is 55.

## Model

| member | source | states |
|---|---|---|
| `Text.Includes` | packages/backend/src/core/SpamDefendService.ts:57 | `includes` is true exactly when the marker occurs at some index of the URL |
| `Text.HasJapaneseScript` | packages/backend/src/core/SpamDefendService.ts:100 | the regular expression matches exactly when some character lies in one of the four Japanese-script ranges |
| `SpamDefend.ProfileScore` | packages/backend/src/core/SpamDefendService.ts:53-68 | the profile bonus lies in 0..40 and is a multiple of 5; it is 0 exactly when no signal holds and 40 exactly when all four hold |
| `SpamDefend.UserScore` | packages/backend/src/core/SpamDefendService.ts:43-74 | the user score lies in 0..40; it is 0 for a local user (null or empty host) and for a remote user with followers; otherwise it is the full profile bonus of the fetched profile; it is positive exactly when the user is remote, has no followers and shows at least one signal |
| `SpamDefend.LocalUserNotFetched` | packages/backend/src/core/SpamDefendService.ts:44-48 | a local user's score is 0 whatever the profile lookup would answer, so the profile is never consulted |
| `SpamDefend.IdenticonAddsFifteen` | packages/backend/src/core/SpamDefendService.ts:56-66 | an identicon avatar adds exactly 15 to the profile score, whatever the other signals are |
| `SpamDefend.NameAddsTen` | packages/backend/src/core/SpamDefendService.ts:59-67 | a name equal to the username adds exactly 10, whatever the other signals are |
| `SpamDefend.EmptyDescriptionAddsTen` | packages/backend/src/core/SpamDefendService.ts:62-68 | an empty description adds exactly 10, whatever the other signals are |
| `SpamDefend.RecentAccountAddsFive` | packages/backend/src/core/SpamDefendService.ts:53-65 | moving an account's creation time from outside to inside the two-day window adds exactly 5, whatever the other signals are |
| `SpamDefend.AbsentAvatarAddsNothing` | packages/backend/src/core/SpamDefendService.ts:57 | an absent avatar URL scores the same as a URL without `identicon` |
| `SpamDefend.AbsentDescriptionAddsNothing` | packages/backend/src/core/SpamDefendService.ts:63 | an absent description scores the same as a non-empty one |
| `SpamDefend.InstanceRecordScore` | packages/backend/src/core/SpamDefendService.ts:91-104 | the instance bonus lies in 0..30 and is a multiple of 5; it is at least 20 exactly when the description is absent or has no Japanese script; it is 0 exactly when no signal holds |
| `SpamDefend.InstanceScore` | packages/backend/src/core/SpamDefendService.ts:77-109 | the instance score lies in 0..30; it is 0 for a local host, for a whitelisted host and for an instance with followers; otherwise it is the full bonus of the fetched record; it is at least 20 exactly when none of those holds and the description has no Japanese script |
| `SpamDefend.RecentInstanceAddsFive` | packages/backend/src/core/SpamDefendService.ts:91-102 | moving an instance's first observation from outside to inside the two-day window (on the same side of the spam-era start) adds exactly 5 |
| `SpamDefend.AfterSpamEraAddsFive` | packages/backend/src/core/SpamDefendService.ts:96-103 | an instance first observed after the spam-era start scores exactly 5 more than the same instance observed at or before it |
| `SpamDefend.ReliableHostNotFetched` | packages/backend/src/core/SpamDefendService.ts:81-86 | a whitelisted host scores 0 whatever the instance lookup would answer, so it is never consulted |
| `SpamDefend.AbsentInstanceDescriptionScores` | packages/backend/src/core/SpamDefendService.ts:99-104 | an absent instance description scores like one without Japanese script, and 20 more than one with it |
| `SpamDefend.ActivityScore` | packages/backend/src/core/SpamDefendService.ts:112-142 | the activity score is one of 0, 5, 10, 20; a like scores 5 exactly when the target has at most 5 renotes and 0 otherwise; an unknown kind scores 0 |
| `SpamDefend.CreateScoreIsStepFunction` | packages/backend/src/core/SpamDefendService.ts:114-130 | a post scores 0, 5, 10 for 0, 1, 2 mentions and 20 for three or more |
| `SpamDefend.ActivityScoreMonotone` | packages/backend/src/core/SpamDefendService.ts:114-139 | more mentions never lower a post's score; more renotes of the liked note never raise a like's score |
| `SpamDefend.IsSpamlike` | packages/backend/src/core/SpamDefendService.ts:31-40 | a zero user score (in particular a local user) gives `false`; a `true` verdict implies the total exceeds 50 |
| `SpamDefend.ZeroUserScoreIgnoresTheRest` | packages/backend/src/core/SpamDefendService.ts:32-36 | with a zero user score the verdict is `false` whatever the host, the activity and the instance lookup are |
| `SpamDefend.VerdictIsStrictThreshold` | packages/backend/src/core/SpamDefendService.ts:35-39 | with a non-zero user score the verdict is exactly "sum of the three scores > 50" |
| `SpamDefend.FollowedUserNeverSpamlike` | packages/backend/src/core/SpamDefendService.ts:33-51 | a user with followers is never spam-like, whatever the other inputs are |
| `SpamDefend.SpamlikeTotalAtLeast55` | packages/backend/src/core/SpamDefendService.ts:19-39 | a spam-like verdict implies a total of at least 55 |
| `SpamDefend.SpamlikeNeedsInstanceOrActivity` | packages/backend/src/core/SpamDefendService.ts:35-39 | the user score alone never decides: a spam-like verdict needs more than 10 points from the instance and the activity |
| `SpamDefend.TrustedHostNeedsMassMention` | packages/backend/src/core/SpamDefendService.ts:79-83 | from a local or whitelisted host, only a post with three or more mentions by a user scoring at least 35 can be spam-like |
| `SpamDefend.ThresholdBoundary` | packages/backend/src/core/SpamDefendService.ts:19-39 | a concrete total of exactly 50 is not spam-like, and the same input with one mention (total 55) is |
| `KigurumiTimeline.CheckHitKigurumi` | packages/backend/src/core/KigurumiTimelineService.ts:58-69 | an admitted note is public, has at least one file, and has the tag `kigurumi` or `着ぐるみ` |
| `KigurumiTimeline.PublicAdmission` | packages/backend/src/core/KigurumiTimelineService.ts:64-68 | a public note is admitted exactly when it has a file and one of the two tags |
| `KigurumiTimeline.AdmissionMonotone` | packages/backend/src/core/KigurumiTimelineService.ts:64-68 | with the visibility kept, adding files or tags never turns an admitted note away |
| `KigurumiTimeline.PushIfKigurumi` | packages/backend/src/core/KigurumiTimelineService.ts:33-39 | the timeline keeps its old contents as a prefix and grows by at most one; it grows exactly when the note is public, has a file and has one of the two tags, and the new entry is the note's id |
| `KigurumiTimeline.AdmittedIds` | packages/backend/src/core/KigurumiTimelineService.ts:33-39 | an id is among the admitted ids exactly when some note with that id is admitted |
| `KigurumiTimeline.PushAllAppendsAdmitted` | packages/backend/src/core/KigurumiTimelineService.ts:33-39 | `PushAll` (one `pushTLIfKigurumi` call per note, in order) appends exactly the admitted notes' ids, in order |
| `KigurumiTimeline.TimelineHoldsExactlyAdmitted` | packages/backend/src/core/KigurumiTimelineService.ts:33-39 | starting from an empty timeline, an id is on it exactly when an admitted note with that id was pushed |

## Left out

- Fetching, clocks and date parsing are left out. `userEntityService.pack`,
  `instanceService.fetch`, `Date.now()` and `new Date(...)` become
  parameters. An unparsable date (a `NaN` time) is not modelled.
- A failing lookup is not modelled. `pack` and `fetch` are total functions,
  so they always return a record. In the source, `userEntityService.pack` and
  `instanceService.fetch` are awaited without a guard (SpamDefendService.ts:48,
  86), so a lookup that throws makes `isSpamlike` reject instead of returning
  a verdict.
- Logging (`this.logger.info`) is left out. It does not affect any result.
- The Redis pipeline and `fanoutTimelineService.push` are left out. So is the
  timeline length cap of 100, which `fanoutTimelineService.push` applies. That
  service is not part of this model. The timeline is an unbounded sequence of ids.
- `get` and the database query of `getFromDb` in `KigurumiTimelineService`
  are left out. They are storage access.
- The `notes/kigurumi-timeline` API endpoint is left out. Its handler body is
  commented out and it returns `null`.
- The `kigurumi-timeline` streaming channel is left out. It is pub/sub
  plumbing, and its mute and block filtering goes through `isUserRelated`,
  which is not part of this model.
- Asynchrony and dependency injection are left out. Every method is a plain
  sequential function.
- JavaScript numbers are modelled as unbounded integers. Counts and
  millisecond timestamps stay far below 2^53, where numbers are exact.
