/**
 * `userStats` of the `aws_iam_users` source (plugins/source/aws/iam/users.go): one IAM
 * user, its access keys and their last-used times become one `aws_iam_user` data point.
 * The key listing and the last-used lookup are AWS calls; their replies are inputs.
 */
module IamUsers {
  import opened Wrappers
  import opened Util
  import opened Metric

  const MetricName := "aws_iam_user"

  /** The plugin's options: whether to leave out the `user_path` tag and the user's own tags. */
  datatype Users = Users(omitUserTags: bool, omitUserPath: bool)

  datatype AccessKey = AccessKey(id: string, status: string, createDate: Time)

  /** An IAM user; `passwordLastUsed` is absent when the password was never used. */
  datatype User = User(userName: string, path: string, createDate: Time, passwordLastUsed: Option<Time>,
                       tags: seq<(string, string)>)

  /** How many keys have the status "active", exactly as written. */
  function ActiveKeyCount(keys: seq<AccessKey>): nat
    decreases |keys|
  {
    if |keys| == 0 then 0
    else ActiveKeyCount(keys[..|keys| - 1]) + if keys[|keys| - 1].status == "active" then 1 else 0
  }

  /**
   * The accumulator `oldestKeyCreatedDate` after the keys: it takes a key's creation date
   * while it is still zero or when that date is earlier.
   */
  function OldestKeyCreated(keys: seq<AccessKey>): Time
    decreases |keys|
  {
    if |keys| == 0 then ZeroTime
    else
      var oldest := OldestKeyCreated(keys[..|keys| - 1]);
      var created := keys[|keys| - 1].createDate;
      if IsZero(oldest) || Before(created, oldest) then created else oldest
  }

  /** The last-used time of every key, in key order, or the first lookup's error. */
  function LastUsedTimes(keys: seq<AccessKey>, lastUsed: string -> Result<Time, string>): (r: Result<seq<Time>, string>)
    ensures r.Success? ==> |r.value| == |keys|
    decreases |keys|
  {
    if |keys| == 0 then Success([])
    else
      match LastUsedTimes(keys[..|keys| - 1], lastUsed)
      case Failure(e) => Failure(e)
      case Success(times) =>
        match lastUsed(keys[|keys| - 1].id)
        case Failure(e) => Failure(e)
        case Success(t) => Success(times + [t])
  }

  /** `lastKeyActivity` after the keys: the `MaxTime` fold of their last-used times, from zero. */
  function LatestKeyActivity(times: seq<Time>): (r: Time)
    ensures !Before(r, ZeroTime)
    decreases |times|
  {
    if |times| == 0 then ZeroTime else MaxTime(LatestKeyActivity(times[..|times| - 1]), times[|times| - 1])
  }

  /** `lastLoginActivity`: the password's last use, or zero. */
  function LoginActivity(user: User): Time {
    if user.passwordLastUsed.Some? then user.passwordLastUsed.value else ZeroTime
  }

  /** `lastActivity`: the later of the login activity and the key activity. */
  function LastActivity(user: User, times: seq<Time>): Time {
    MaxTime(LoginActivity(user), LatestKeyActivity(times))
  }

  /** The map `m` with `k := v` set when `present`. */
  function Put<V>(m: map<string, V>, present: bool, k: string, v: V): map<string, V> {
    if present then m[k := v] else m
  }

  /** The map `m` with `tag_<key> := value` set for each user tag in turn. */
  function WithUserTags(m: map<string, string>, tags: seq<(string, string)>): map<string, string>
    decreases |tags|
  {
    if |tags| == 0 then m
    else WithUserTags(m, tags[..|tags| - 1])["tag_" + tags[|tags| - 1].0 := tags[|tags| - 1].1]
  }

  function UserTags(plugin: Users, user: User): map<string, string> {
    var base := Put(map["user_name" := user.userName], !plugin.omitUserPath, "user_path", user.path);
    if plugin.omitUserTags then base else WithUserTags(base, user.tags)
  }

  function UserFields(now: Time, user: User, keys: seq<AccessKey>, times: seq<Time>): map<string, FieldValue> {
    var oldest := OldestKeyCreated(keys);
    var last := LastActivity(user, times);
    var login := LoginActivity(user);
    var keyActivity := LatestKeyActivity(times);
    var f0 := Put(map["age" := DurationValue(now - user.createDate)], !IsZero(oldest), "oldest_key_age",
                  DurationValue(now - oldest));
    var f1 := f0["active_key_count" := IntValue(Int, ActiveKeyCount(keys))];
    var f2 := Put(f1, !IsZero(last), "since_last_activity", DurationValue(now - last));
    var f3 := Put(f2, !IsZero(last) && !IsZero(login), "since_last_login_activity", DurationValue(now - login));
    Put(f3, !IsZero(last) && !IsZero(keyActivity), "since_last_key_activity", DurationValue(now - keyActivity))
  }

  /**
   * What `userStats` returns: the error of the key listing or of the first failing last-used
   * lookup, or the user's data point at `now`.
   */
  function UserStatsOf(plugin: Users, now: Time, user: User, listed: Result<seq<AccessKey>, string>,
                       lastUsed: string -> Result<Time, string>): Result<Datum, string>
  {
    match listed
    case Failure(e) => Failure(e)
    case Success(keys) =>
      match LastUsedTimes(keys, lastUsed)
      case Failure(e) => Failure(e)
      case Success(times) => Success(Datum(MetricName, now, UserTags(plugin, user), UserFields(now, user, keys, times)))
  }

  /**
   * `userStats`: scans the keys once, then fills the tag and field maps. On an error it
   * returns the empty data point and that error.
   */
  method UserStats(plugin: Users, now: Time, user: User, listed: Result<seq<AccessKey>, string>,
                   lastUsed: string -> Result<Time, string>) returns (d: Datum, err: Option<string>)
    ensures match UserStatsOf(plugin, now, user, listed, lastUsed)
      case Success(r) => err == None && d == r
      case Failure(e) => err == Some(e) && d == EmptyDatum
  {
    if listed.Failure? {
      return EmptyDatum, Some(listed.error);
    }
    var keys := listed.value;
    var tags := map["user_name" := user.userName];
    if !plugin.omitUserPath {
      tags := tags["user_path" := user.path];
    }
    var activeKeyCount, oldest, lastKeyActivity, lastActivity;
    activeKeyCount, oldest, lastKeyActivity, lastActivity, err := ScanKeys(user, keys, lastUsed);
    if err.Some? {
      return EmptyDatum, err;
    }
    var fields := KeyFields(now, user, activeKeyCount, oldest, LoginActivity(user), lastKeyActivity, lastActivity,
                            keys, LastUsedTimes(keys, lastUsed).value);
    if !plugin.omitUserTags {
      tags := AddUserTags(tags, user.tags);
    }
    d := Datum(MetricName, now, tags, fields);
  }

  /**
   * The loop over the keys: counts the active ones, keeps the oldest creation date and folds
   * the last-used times into `lastKeyActivity` and `lastActivity`, stopping at the first
   * lookup that fails.
   */
  method ScanKeys(user: User, keys: seq<AccessKey>, lastUsed: string -> Result<Time, string>)
    returns (activeKeyCount: nat, oldest: Time, lastKeyActivity: Time, lastActivity: Time, err: Option<string>)
    ensures match LastUsedTimes(keys, lastUsed)
      case Failure(e) => err == Some(e)
      case Success(times) =>
        && err == None && activeKeyCount == ActiveKeyCount(keys) && oldest == OldestKeyCreated(keys)
        && lastKeyActivity == LatestKeyActivity(times) && lastActivity == LastActivity(user, times)
  {
    activeKeyCount := 0;
    lastActivity, lastKeyActivity, oldest := ZeroTime, ZeroTime, ZeroTime;
    if user.passwordLastUsed.Some? {
      lastActivity := MaxTime(lastActivity, user.passwordLastUsed.value);
    }
    assert keys[..0] == [];
    for i := 0 to |keys|
      invariant activeKeyCount == ActiveKeyCount(keys[..i])
      invariant oldest == OldestKeyCreated(keys[..i])
      invariant LastUsedTimes(keys[..i], lastUsed).Success?
      invariant lastKeyActivity == LatestKeyActivity(LastUsedTimes(keys[..i], lastUsed).value)
      invariant lastActivity == MaxTime(LoginActivity(user), lastKeyActivity)
    {
      ScanStep(user, keys, i, lastUsed, lastKeyActivity);
      if keys[i].status == "active" {
        activeKeyCount := activeKeyCount + 1;
      }
      if IsZero(oldest) || Before(keys[i].createDate, oldest) {
        oldest := keys[i].createDate;
      }
      var used := lastUsed(keys[i].id);
      if used.Failure? {
        LastUsedFailureStays(keys, i + 1, lastUsed);
        return activeKeyCount, oldest, lastKeyActivity, lastActivity, Some(used.error);
      }
      lastKeyActivity := MaxTime(lastKeyActivity, used.value);
      lastActivity := MaxTime(lastActivity, lastKeyActivity);
    }
    assert keys[..|keys|] == keys;
    err := None;
  }

  /** The fields after the scan, filled in the order `userStats` writes them. */
  method KeyFields(now: Time, user: User, activeKeyCount: nat, oldest: Time, lastLoginActivity: Time,
                   lastKeyActivity: Time, lastActivity: Time, ghost keys: seq<AccessKey>, ghost times: seq<Time>)
    returns (fields: map<string, FieldValue>)
    requires activeKeyCount == ActiveKeyCount(keys) && oldest == OldestKeyCreated(keys)
    requires lastLoginActivity == LoginActivity(user)
    requires lastKeyActivity == LatestKeyActivity(times) && lastActivity == LastActivity(user, times)
    ensures fields == UserFields(now, user, keys, times)
  {
    fields := map["age" := DurationValue(now - user.createDate)];
    if !IsZero(oldest) {
      fields := fields["oldest_key_age" := DurationValue(now - oldest)];
    }
    fields := fields["active_key_count" := IntValue(Int, activeKeyCount)];
    if !IsZero(lastActivity) {
      fields := fields["since_last_activity" := DurationValue(now - lastActivity)];
      if !IsZero(lastLoginActivity) {
        fields := fields["since_last_login_activity" := DurationValue(now - lastLoginActivity)];
      }
      if !IsZero(lastKeyActivity) {
        fields := fields["since_last_key_activity" := DurationValue(now - lastKeyActivity)];
      }
    }
  }

  /** The loop over the user's tags: sets `tag_<key> := value` for each, in order. */
  method AddUserTags(m: map<string, string>, tags: seq<(string, string)>) returns (r: map<string, string>)
    ensures r == WithUserTags(m, tags)
  {
    r := m;
    assert tags[..0] == [];
    for j := 0 to |tags|
      invariant r == WithUserTags(m, tags[..j])
    {
      assert tags[..j + 1][..j] == tags[..j];
      r := r["tag_" + tags[j].0 := tags[j].1];
    }
    assert tags[..|tags|] == tags;
  }

  /** Key `i` of the scan: how each accumulator's reference value moves past it. */
  lemma ScanStep(user: User, keys: seq<AccessKey>, i: nat, lastUsed: string -> Result<Time, string>, keyActivity: Time)
    requires i < |keys|
    requires LastUsedTimes(keys[..i], lastUsed).Success?
    requires keyActivity == LatestKeyActivity(LastUsedTimes(keys[..i], lastUsed).value)
    ensures ActiveKeyCount(keys[..i + 1]) == ActiveKeyCount(keys[..i]) + if keys[i].status == "active" then 1 else 0
    ensures var oldest := OldestKeyCreated(keys[..i]);
      OldestKeyCreated(keys[..i + 1]) == if IsZero(oldest) || Before(keys[i].createDate, oldest) then keys[i].createDate else oldest
    ensures lastUsed(keys[i].id).Success? ==>
      var next := MaxTime(keyActivity, lastUsed(keys[i].id).value);
      && LastUsedTimes(keys[..i + 1], lastUsed).Success?
      && LatestKeyActivity(LastUsedTimes(keys[..i + 1], lastUsed).value) == next
      && MaxTime(MaxTime(LoginActivity(user), keyActivity), next) == MaxTime(LoginActivity(user), next)
  {
    assert keys[..i + 1][..i] == keys[..i];
    if lastUsed(keys[i].id).Success? {
      var times := LastUsedTimes(keys[..i], lastUsed).value;
      assert LastUsedTimes(keys[..i + 1], lastUsed).value == times + [lastUsed(keys[i].id).value];
      assert (times + [lastUsed(keys[i].id).value])[..i] == times;
    }
  }

  /** Once a last-used lookup fails, that error is the outcome of the whole scan. */
  lemma {:induction false} LastUsedFailureStays(keys: seq<AccessKey>, n: nat, lastUsed: string -> Result<Time, string>)
    requires 0 < n <= |keys|
    requires LastUsedTimes(keys[..n - 1], lastUsed).Success? && lastUsed(keys[n - 1].id).Failure?
    ensures LastUsedTimes(keys, lastUsed) == Failure(lastUsed(keys[n - 1].id).error)
    decreases |keys| - n
  {
    assert keys[..n][..n - 1] == keys[..n - 1];
    if n < |keys| {
      assert keys[..|keys| - 1][..n - 1] == keys[..n - 1];
      LastUsedFailureStays(keys[..|keys| - 1], n, lastUsed);
    } else {
      assert keys[..n] == keys;
    }
  }
}
