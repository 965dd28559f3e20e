/** The spam-likeness heuristic of `SpamDefendService`: three integer
    sub-scores (user, instance, activity) added up and compared against a
    fixed threshold, with a short-circuit on a zero user score.

    The service's collaborators become parameters: `pack` stands for
    `userEntityService.pack` (user id to detailed profile), `fetch` for
    `instanceService.fetch` (host to instance record), and `Env` carries the
    two clock readings `Date.now()` (one taken by the user scorer after the
    profile lookup, one by the instance scorer after the instance lookup) and
    the instant `new Date('2024/2/10')`. All instants are milliseconds since
    the epoch. */
module SpamDefend {

  import opened Wrappers
  import opened Text

  /** A verdict is spam-like only when the total strictly exceeds this. */
  const Threshold: int := 50

  /** Two days in milliseconds: the window in which an account or a server counts as new. */
  const RecentTime: int := 1000 * 2 * 24 * 60 * 60

  /** Hosts whose instance score is 0 without any lookup. */
  const ReliableInstances: seq<string> := ["misskey.io", "fedibird.com", "mkkey.net"]

  /** The marker of a generated placeholder avatar URL. */
  const IdenticonMarker: string := "identicon"

  /** The caller-supplied identity of the acting user: `{ id, host }`. */
  datatype UserRef = UserRef(id: string, host: Option<string>)

  /** The fields of the packed `UserDetailed` profile that the heuristic reads. */
  datatype PackedUser = PackedUser(
    name: Option<string>,
    username: string,
    host: Option<string>,
    avatarUrl: Option<string>,
    description: Option<string>,
    followersCount: int,
    createdAt: int)

  /** The fields of a federated instance record that the heuristic reads. */
  datatype Instance = Instance(
    host: string,
    followersCount: int,
    firstRetrievedAt: int,
    description: Option<string>)

  /** `InspectActivityArg`. `Other` is a value whose `type` is neither
      `create` nor `like`, which the scorer still has to answer. */
  datatype Activity =
    | Create(mentionedUsersCount: int)
    | Like(targetRenoteCount: int)
    | Other(kind: string)

  /** The clock as the user scorer reads it, the clock as the instance scorer
      reads it, and the start of the spam era. */
  datatype Env = Env(userNow: int, instanceNow: int, spamEraStart: int)

  /** JavaScript's `!host` for a `string | null`: null and the empty string are both local. */
  predicate IsLocalHost(host: Option<string>)
  {
    host.None? || host.value == ""
  }

  predicate IsReliableHost(host: string)
  {
    host in ReliableInstances
  }

  /** First observed less than `RecentTime` before `now` (or in the future). */
  predicate ObservedRecently(now: int, since: int)
  {
    now - since < RecentTime
  }

  // ---------------------------------------------------------------------
  // User score
  // ---------------------------------------------------------------------

  /** `avatarUrl?.includes('identicon')`: an absent URL does not count. */
  predicate HasIdenticonAvatar(p: PackedUser)
  {
    p.avatarUrl.Some? && Includes(p.avatarUrl.value, IdenticonMarker)
  }

  /** `name === username`: an absent name never equals the username. */
  predicate NameIsUsername(p: PackedUser)
  {
    p.name.Some? && p.name.value == p.username
  }

  /** `description?.length === 0`: only a present, empty description counts. */
  predicate HasEmptyDescription(p: PackedUser)
  {
    p.description.Some? && |p.description.value| == 0
  }

  /** The bonus of a profile that passed the local and follower gates. */
  function ProfileScore(p: PackedUser, now: int): (score: int)
    ensures 0 <= score <= 40
    ensures score % 5 == 0
    ensures score == 0 <==>
      !ObservedRecently(now, p.createdAt) && !HasIdenticonAvatar(p)
      && !NameIsUsername(p) && !HasEmptyDescription(p)
    ensures score == 40 <==>
      ObservedRecently(now, p.createdAt) && HasIdenticonAvatar(p)
      && NameIsUsername(p) && HasEmptyDescription(p)
  {
    var recent := if ObservedRecently(now, p.createdAt) then 5 else 0;
    var avatar := if HasIdenticonAvatar(p) then 15 else 0;
    var name := if NameIsUsername(p) then 10 else 0;
    var description := if HasEmptyDescription(p) then 10 else 0;
    recent + avatar + name + description
  }

  /** `calcSuspiciousUserScore`. */
  function UserScore(user: UserRef, pack: string -> PackedUser, now: int): (score: int)
    ensures 0 <= score <= 40
    ensures score % 5 == 0
    ensures IsLocalHost(user.host) ==> score == 0
    ensures !IsLocalHost(user.host) && pack(user.id).followersCount > 0 ==> score == 0
    ensures score > 0 <==>
      !IsLocalHost(user.host) && pack(user.id).followersCount <= 0
      && (ObservedRecently(now, pack(user.id).createdAt) || HasIdenticonAvatar(pack(user.id))
          || NameIsUsername(pack(user.id)) || HasEmptyDescription(pack(user.id)))
    ensures !IsLocalHost(user.host) && pack(user.id).followersCount <= 0 ==>
      score == ProfileScore(pack(user.id), now)
  {
    if IsLocalHost(user.host) then 0
    else
      var packed := pack(user.id);
      if packed.followersCount > 0 then 0
      else ProfileScore(packed, now)
  }

  /** A local user's profile is never fetched: the score is the same whatever `pack` answers. */
  lemma LocalUserNotFetched(user: UserRef, pack1: string -> PackedUser, pack2: string -> PackedUser, now: int)
    requires IsLocalHost(user.host)
    ensures UserScore(user, pack1, now) == UserScore(user, pack2, now) == 0
  {
  }

  /** Each profile signal adds its own weight, whatever the other signals are:
      two profiles that differ only in the avatar URL differ by exactly 15 when
      one is an identicon and the other is not. */
  lemma IdenticonAddsFifteen(p: PackedUser, url: string, now: int)
    requires Includes(url, IdenticonMarker)
    requires !HasIdenticonAvatar(p)
    ensures ProfileScore(p.(avatarUrl := Some(url)), now) == ProfileScore(p, now) + 15
  {
  }

  lemma NameAddsTen(p: PackedUser, now: int)
    requires !NameIsUsername(p)
    ensures ProfileScore(p.(name := Some(p.username)), now) == ProfileScore(p, now) + 10
  {
  }

  lemma EmptyDescriptionAddsTen(p: PackedUser, now: int)
    requires !HasEmptyDescription(p)
    ensures ProfileScore(p.(description := Some("")), now) == ProfileScore(p, now) + 10
  {
  }

  lemma RecentAccountAddsFive(p: PackedUser, t: int, now: int)
    requires !ObservedRecently(now, p.createdAt) && ObservedRecently(now, t)
    ensures ProfileScore(p.(createdAt := t), now) == ProfileScore(p, now) + 5
  {
  }

  /** An absent avatar scores like an ordinary custom avatar, and an absent
      description like a non-empty one: neither adds anything. */
  lemma AbsentAvatarAddsNothing(p: PackedUser, url: string, now: int)
    requires !Includes(url, IdenticonMarker)
    ensures ProfileScore(p.(avatarUrl := None), now) == ProfileScore(p.(avatarUrl := Some(url)), now)
  {
  }

  lemma AbsentDescriptionAddsNothing(p: PackedUser, text: string, now: int)
    requires |text| > 0
    ensures ProfileScore(p.(description := None), now) == ProfileScore(p.(description := Some(text)), now)
  {
  }

  // ---------------------------------------------------------------------
  // Instance score
  // ---------------------------------------------------------------------

  /** `!instance.description?.match(/[ぁ-んァ-ヶー一-龯]/)`: an absent description counts. */
  predicate HasNoJapaneseDescription(i: Instance)
  {
    i.description.None? || !HasJapaneseScript(i.description.value)
  }

  /** The bonus of an instance record that passed the gates. */
  function InstanceRecordScore(i: Instance, env: Env): (score: int)
    ensures 0 <= score <= 30
    ensures score % 5 == 0
    ensures score >= 20 <==> HasNoJapaneseDescription(i)
    ensures score == 0 <==>
      !ObservedRecently(env.instanceNow, i.firstRetrievedAt) && i.firstRetrievedAt <= env.spamEraStart
      && !HasNoJapaneseDescription(i)
  {
    var recent := if ObservedRecently(env.instanceNow, i.firstRetrievedAt) then 5 else 0;
    var afterSpamEra := if i.firstRetrievedAt > env.spamEraStart then 5 else 0;
    var noJapanese := if HasNoJapaneseDescription(i) then 20 else 0;
    recent + afterSpamEra + noJapanese
  }

  /** `calcSuspiciousInstanceScore`. */
  function InstanceScore(host: Option<string>, fetch: string -> Instance, env: Env): (score: int)
    ensures 0 <= score <= 30
    ensures score % 5 == 0
    ensures IsLocalHost(host) ==> score == 0
    ensures host.Some? && IsReliableHost(host.value) ==> score == 0
    ensures !IsLocalHost(host) && fetch(host.value).followersCount > 0 ==> score == 0
    ensures score >= 20 <==>
      !IsLocalHost(host) && !IsReliableHost(host.value)
      && fetch(host.value).followersCount <= 0 && HasNoJapaneseDescription(fetch(host.value))
    ensures !IsLocalHost(host) && !IsReliableHost(host.value) && fetch(host.value).followersCount <= 0 ==>
      score == InstanceRecordScore(fetch(host.value), env)
  {
    if IsLocalHost(host) then 0
    else if IsReliableHost(host.value) then 0
    else
      var instance := fetch(host.value);
      if instance.followersCount > 0 then 0
      else InstanceRecordScore(instance, env)
  }

  /** Each instance signal adds its own weight, whatever the other signals
      are. Moving the first observation into the two-day window, without
      crossing the spam-era start, adds exactly 5. */
  lemma RecentInstanceAddsFive(i: Instance, t: int, env: Env)
    requires !ObservedRecently(env.instanceNow, i.firstRetrievedAt) && ObservedRecently(env.instanceNow, t)
    requires (t > env.spamEraStart) == (i.firstRetrievedAt > env.spamEraStart)
    ensures InstanceRecordScore(i.(firstRetrievedAt := t), env) == InstanceRecordScore(i, env) + 5
  {
  }

  /** Moving the spam-era start from after to before the first observation adds exactly 5. */
  lemma AfterSpamEraAddsFive(i: Instance, env: Env, era: int)
    requires i.firstRetrievedAt <= env.spamEraStart && i.firstRetrievedAt > era
    ensures InstanceRecordScore(i, env.(spamEraStart := era)) == InstanceRecordScore(i, env) + 5
  {
  }

  /** A reliable host is never looked up: the score is the same whatever `fetch` answers. */
  lemma ReliableHostNotFetched(host: string, fetch1: string -> Instance, fetch2: string -> Instance, env: Env)
    requires IsReliableHost(host)
    ensures InstanceScore(Some(host), fetch1, env) == InstanceScore(Some(host), fetch2, env) == 0
  {
  }

  /** An absent instance description scores exactly like one without Japanese
      script, and 20 more than one with it. */
  lemma AbsentInstanceDescriptionScores(i: Instance, text: string, env: Env)
    ensures !HasJapaneseScript(text) ==>
      InstanceRecordScore(i.(description := None), env) == InstanceRecordScore(i.(description := Some(text)), env)
    ensures HasJapaneseScript(text) ==>
      InstanceRecordScore(i.(description := None), env) == InstanceRecordScore(i.(description := Some(text)), env) + 20
  {
  }

  // ---------------------------------------------------------------------
  // Activity score
  // ---------------------------------------------------------------------

  /** `calcSuspiciousActivity`. A mention count outside 0, 1 and 2 (including
      a negative one) falls into the last branch. */
  function ActivityScore(activity: Activity): (score: int)
    ensures score == 0 || score == 5 || score == 10 || score == 20
    ensures activity.Like? ==> (score == 5 <==> activity.targetRenoteCount <= 5)
    ensures activity.Like? ==> (score == 0 <==> activity.targetRenoteCount > 5)
    ensures activity.Other? ==> score == 0
  {
    match activity
    case Create(count) =>
      if count == 0 then 0
      else if count == 1 then 5
      else if count == 2 then 10
      else 20
    case Like(renoteCount) =>
      if renoteCount <= 5 then 5 else 0
    case Other(_) => 0
  }

  /** The mention tiers: 0 -> 0, 1 -> 5, 2 -> 10, and 20 for three or more. */
  lemma CreateScoreIsStepFunction(count: int)
    ensures count == 0 ==> ActivityScore(Create(count)) == 0
    ensures count == 1 ==> ActivityScore(Create(count)) == 5
    ensures count == 2 ==> ActivityScore(Create(count)) == 10
    ensures count >= 3 ==> ActivityScore(Create(count)) == 20
  {
  }

  /** More mentions never lower the score, and fewer renotes of a liked note never lower it. */
  lemma ActivityScoreMonotone(a: int, b: int)
    requires 0 <= a <= b
    ensures ActivityScore(Create(a)) <= ActivityScore(Create(b))
    ensures ActivityScore(Like(a)) >= ActivityScore(Like(b))
  {
  }

  // ---------------------------------------------------------------------
  // Verdict
  // ---------------------------------------------------------------------

  /** `isSpamlike`. The instance score is computed for `host`, which the caller
      passes separately from `user.host`. */
  function IsSpamlike(
    user: UserRef, host: Option<string>, activity: Activity,
    pack: string -> PackedUser, fetch: string -> Instance, env: Env): (spam: bool)
    ensures UserScore(user, pack, env.userNow) == 0 ==> !spam
    ensures IsLocalHost(user.host) ==> !spam
    ensures spam ==> UserScore(user, pack, env.userNow) + InstanceScore(host, fetch, env) + ActivityScore(activity) > Threshold
  {
    var userScore := UserScore(user, pack, env.userNow);
    if userScore == 0 then false
    else
      var instanceScore := InstanceScore(host, fetch, env);
      var activityScore := ActivityScore(activity);
      var score := userScore + instanceScore + activityScore;
      score > Threshold
  }

  /** The short-circuit: with a zero user score the verdict is false whatever
      the host, the activity and the instance lookup are. */
  lemma ZeroUserScoreIgnoresTheRest(
    user: UserRef, pack: string -> PackedUser, env: Env,
    host1: Option<string>, activity1: Activity, fetch1: string -> Instance,
    host2: Option<string>, activity2: Activity, fetch2: string -> Instance)
    requires UserScore(user, pack, env.userNow) == 0
    ensures IsSpamlike(user, host1, activity1, pack, fetch1, env)
         == IsSpamlike(user, host2, activity2, pack, fetch2, env)
         == false
  {
  }

  /** Once the user score is non-zero, the verdict is the strict comparison of the total. */
  lemma VerdictIsStrictThreshold(
    user: UserRef, host: Option<string>, activity: Activity,
    pack: string -> PackedUser, fetch: string -> Instance, env: Env)
    requires UserScore(user, pack, env.userNow) > 0
    ensures IsSpamlike(user, host, activity, pack, fetch, env)
        <==> UserScore(user, pack, env.userNow) + InstanceScore(host, fetch, env) + ActivityScore(activity) > Threshold
  {
  }

  /** A remote user with followers is never spam-like, whatever else holds. */
  lemma FollowedUserNeverSpamlike(
    user: UserRef, host: Option<string>, activity: Activity,
    pack: string -> PackedUser, fetch: string -> Instance, env: Env)
    requires pack(user.id).followersCount > 0
    ensures !IsSpamlike(user, host, activity, pack, fetch, env)
  {
  }

  /** Every sub-score is a multiple of 5, so no total lands between 50 and 55:
      a total of 50 is not spam-like and the smallest spam-like total is 55. */
  lemma SpamlikeTotalAtLeast55(
    user: UserRef, host: Option<string>, activity: Activity,
    pack: string -> PackedUser, fetch: string -> Instance, env: Env)
    ensures IsSpamlike(user, host, activity, pack, fetch, env) ==>
      UserScore(user, pack, env.userNow) + InstanceScore(host, fetch, env) + ActivityScore(activity) >= 55
  {
  }

  /** The user score alone never reaches the threshold: a spam-like verdict
      needs more than 10 points from the instance and the activity together. */
  lemma SpamlikeNeedsInstanceOrActivity(
    user: UserRef, host: Option<string>, activity: Activity,
    pack: string -> PackedUser, fetch: string -> Instance, env: Env)
    ensures IsSpamlike(user, host, activity, pack, fetch, env) ==>
      InstanceScore(host, fetch, env) + ActivityScore(activity) > 10
  {
  }

  /** From a local or reliable host, only a post with three or more mentions by
      a user scoring at least 35 can be spam-like. */
  lemma TrustedHostNeedsMassMention(
    user: UserRef, host: Option<string>, activity: Activity,
    pack: string -> PackedUser, fetch: string -> Instance, env: Env)
    requires IsLocalHost(host) || IsReliableHost(host.value)
    ensures IsSpamlike(user, host, activity, pack, fetch, env) ==>
      ActivityScore(activity) == 20 && activity.Create? && UserScore(user, pack, env.userNow) >= 35
  {
  }

  // ---------------------------------------------------------------------
  // The threshold boundary on concrete inputs
  // ---------------------------------------------------------------------

  /** A brand-new remote account with every profile signal (40), on a recent
      server with a Japanese description (5 + 5), the spam era having started
      before the server was first seen. */
  function BoundaryPack(id: string): PackedUser
  {
    PackedUser(Some("spam"), "spam", Some("evil.example"),
               Some("https://evil.example/identicon/x.png"), Some(""), 0, 0)
  }

  function BoundaryFetch(host: string): Instance
  {
    Instance(host, 0, 0, Some("\U{65E5}\U{672C}"))
  }

  /** Total exactly 50 (40 + 10 + 0): not spam-like. One mention more makes
      it 55: spam-like. */
  lemma ThresholdBoundary()
    ensures !IsSpamlike(UserRef("u", Some("evil.example")), Some("evil.example"), Create(0),
                        BoundaryPack, BoundaryFetch, Env(3600000, 3600000, -1))
    ensures IsSpamlike(UserRef("u", Some("evil.example")), Some("evil.example"), Create(1),
                       BoundaryPack, BoundaryFetch, Env(3600000, 3600000, -1))
  {
    var url := "https://evil.example/identicon/x.png";
    assert url[21..30] == IdenticonMarker;
    assert OccursAt(url, IdenticonMarker, 21);
    assert IsJapaneseChar("\U{65E5}\U{672C}"[0]);
    assert UserScore(UserRef("u", Some("evil.example")), BoundaryPack, 3600000) == 40;
    assert InstanceScore(Some("evil.example"), BoundaryFetch, Env(3600000, 3600000, -1)) == 10;
  }
}
