/**
 * What the IAM user's data point says: how many keys are active, the oldest key, the latest
 * activity, which fields appear, and how the user's own tags are carried over.
 */
module IamUsersFacts {
  import opened Wrappers
  import opened Util
  import opened Metric
  import opened IamUsers

  /** The status of each key, in order. */
  function Statuses(keys: seq<AccessKey>): (r: seq<string>)
    ensures |r| == |keys| && forall i :: 0 <= i < |keys| ==> r[i] == keys[i].status
  {
    seq(|keys|, i requires 0 <= i < |keys| => keys[i].status)
  }

  /** `active_key_count` is the number of occurrences of "active" among the statuses. */
  lemma {:induction false} ActiveKeysCounted(keys: seq<AccessKey>)
    ensures ActiveKeyCount(keys) == multiset(Statuses(keys))["active"]
    decreases |keys|
  {
    if |keys| > 0 {
      var n := |keys| - 1;
      ActiveKeysCounted(keys[..n]);
      assert Statuses(keys) == Statuses(keys[..n]) + [keys[n].status];
    }
  }

  /**
   * When no key carries the zero time as its creation date, `oldestKeyCreatedDate` is zero
   * exactly when there is no key, and otherwise the earliest creation date among the keys.
   */
  lemma {:induction false} OldestIsEarliest(keys: seq<AccessKey>)
    requires forall i :: 0 <= i < |keys| ==> !IsZero(keys[i].createDate)
    ensures IsZero(OldestKeyCreated(keys)) <==> |keys| == 0
    ensures |keys| > 0 ==>
      (exists i :: 0 <= i < |keys| && OldestKeyCreated(keys) == keys[i].createDate)
      && forall i :: 0 <= i < |keys| ==> !Before(keys[i].createDate, OldestKeyCreated(keys))
    decreases |keys|
  {
    if |keys| > 0 {
      var n := |keys| - 1;
      OldestIsEarliest(keys[..n]);
      assert forall i :: 0 <= i < n ==> keys[..n][i] == keys[i];
      if n > 0 {
        var i :| 0 <= i < n && OldestKeyCreated(keys[..n]) == keys[..n][i].createDate;
        if OldestKeyCreated(keys) != keys[n].createDate {
          assert OldestKeyCreated(keys) == keys[i].createDate;
        }
      }
    }
  }

  /**
   * `lastKeyActivity` is not before any key's last use, and is one of those times or zero
   * (zero when there was no key, or every use lies before the zero time).
   */
  lemma {:induction false} LatestIsLatest(times: seq<Time>)
    ensures forall i :: 0 <= i < |times| ==> !Before(LatestKeyActivity(times), times[i])
    ensures IsZero(LatestKeyActivity(times)) || exists i :: 0 <= i < |times| && LatestKeyActivity(times) == times[i]
    decreases |times|
  {
    if |times| > 0 {
      var n := |times| - 1;
      LatestIsLatest(times[..n]);
      assert forall i :: 0 <= i < n ==> times[..n][i] == times[i];
      if !IsZero(LatestKeyActivity(times)) && LatestKeyActivity(times) != times[n] {
        var i :| 0 <= i < n && LatestKeyActivity(times[..n]) == times[..n][i];
        assert LatestKeyActivity(times) == times[i];
      }
    }
  }

  /** `lastActivity` is the later of the password's last use and the keys' latest use. */
  lemma LastActivityIsLatest(user: User, times: seq<Time>)
    ensures var last := LastActivity(user, times);
      && !Before(last, LatestKeyActivity(times))
      && (user.passwordLastUsed.Some? ==> !Before(last, user.passwordLastUsed.value))
      && (forall i :: 0 <= i < |times| ==> !Before(last, times[i]))
      && (last == LatestKeyActivity(times) || user.passwordLastUsed == Some(last))
  {
    LatestIsLatest(times);
  }

  /** The fields every user's data point has: `age` and `active_key_count`, and at most four more. */
  lemma UserFieldsAlways(now: Time, user: User, keys: seq<AccessKey>, times: seq<Time>)
    ensures var f := UserFields(now, user, keys, times);
      && "age" in f && f["age"] == DurationValue(now - user.createDate)
      && "active_key_count" in f && f["active_key_count"] == IntValue(Int, ActiveKeyCount(keys))
      && f.Keys <= {"age", "active_key_count", "oldest_key_age", "since_last_activity", "since_last_login_activity",
                    "since_last_key_activity"}
  {
    UserFieldsBound(now, user, keys, times);
  }

  /** No field other than these six is ever set. */
  lemma UserFieldsBound(now: Time, user: User, keys: seq<AccessKey>, times: seq<Time>)
    ensures UserFields(now, user, keys, times).Keys <= {"age", "active_key_count", "oldest_key_age", "since_last_activity",
                                                     "since_last_login_activity", "since_last_key_activity"}
  {
  }

  /** `oldest_key_age` appears exactly when the oldest creation date is set, measured from it. */
  lemma OldestKeyField(now: Time, user: User, keys: seq<AccessKey>, times: seq<Time>)
    ensures var f := UserFields(now, user, keys, times);
      var oldest := OldestKeyCreated(keys);
      && ("oldest_key_age" in f <==> !IsZero(oldest))
      && (!IsZero(oldest) ==> f["oldest_key_age"] == DurationValue(now - oldest))
  {
  }

  /**
   * `since_last_activity` appears exactly when there was any activity; the login and key
   * variants appear only beside it, and only when their own time is set.
   */
  lemma ActivityFields(now: Time, user: User, keys: seq<AccessKey>, times: seq<Time>)
    ensures var f := UserFields(now, user, keys, times);
      var last := LastActivity(user, times);
      var login := LoginActivity(user);
      var keyActivity := LatestKeyActivity(times);
      && ("since_last_activity" in f <==> !IsZero(last))
      && (!IsZero(last) ==> f["since_last_activity"] == DurationValue(now - last))
      && ("since_last_login_activity" in f <==> !IsZero(last) && !IsZero(login))
      && (!IsZero(last) && !IsZero(login) ==> f["since_last_login_activity"] == DurationValue(now - login))
      && ("since_last_key_activity" in f <==> !IsZero(last) && !IsZero(keyActivity))
      && (!IsZero(last) && !IsZero(keyActivity) ==> f["since_last_key_activity"] == DurationValue(now - keyActivity))
  {
  }

  /** A key of the form `tag_<key>`. */
  predicate IsTagKey(k: string) {
    |k| >= 4 && k[..4] == "tag_"
  }

  lemma TagKeyShape(key: string)
    ensures IsTagKey("tag_" + key) && ("tag_" + key)[4..] == key
  {
    assert ("tag_" + key)[..4] == "tag_";
  }

  /** Setting the user tags changes no key that is not of the form `tag_<key>` and adds no other key. */
  lemma {:induction false} WithUserTagsKeeps(m: map<string, string>, tags: seq<(string, string)>)
    ensures var r := WithUserTags(m, tags);
      && (forall k :: k in m && !IsTagKey(k) ==> k in r && r[k] == m[k])
      && (forall k :: k in r ==> k in m || exists j :: 0 <= j < |tags| && k == "tag_" + tags[j].0)
    decreases |tags|
  {
    if |tags| > 0 {
      var n := |tags| - 1;
      WithUserTagsKeeps(m, tags[..n]);
      TagKeyShape(tags[n].0);
      forall k | k in WithUserTags(m, tags) && k !in m
        ensures exists j :: 0 <= j < |tags| && k == "tag_" + tags[j].0
      {
        if k != "tag_" + tags[n].0 {
          var j :| 0 <= j < n && k == "tag_" + tags[..n][j].0;
          assert tags[..n][j] == tags[j];
        }
      }
    }
  }

  /** Every user tag is set as `tag_<key>`, holding the value of the last tag with that key. */
  lemma {:induction false} WithUserTagsSets(m: map<string, string>, tags: seq<(string, string)>)
    ensures var r := WithUserTags(m, tags);
      && (forall j :: 0 <= j < |tags| ==> "tag_" + tags[j].0 in r)
      && (forall j :: 0 <= j < |tags| && (forall l :: j < l < |tags| ==> tags[l].0 != tags[j].0)
            ==> r["tag_" + tags[j].0] == tags[j].1)
    decreases |tags|
  {
    if |tags| > 0 {
      var n := |tags| - 1;
      var before := tags[..n];
      WithUserTagsSets(m, before);
      assert forall j :: 0 <= j < n ==> before[j] == tags[j];
      var last := "tag_" + tags[n].0;
      TagKeyShape(tags[n].0);
      forall j | 0 <= j < n && (forall l :: j < l < |tags| ==> tags[l].0 != tags[j].0)
        ensures WithUserTags(m, tags)["tag_" + tags[j].0] == tags[j].1
      {
        TagKeyShape(tags[j].0);
        assert "tag_" + tags[j].0 != last;
      }
    }
  }

  lemma NamePathNotTagKeys()
    ensures !IsTagKey("user_name") && !IsTagKey("user_path")
  {
    assert "user_name"[..4] == "user" && "user_path"[..4] == "user";
  }

  /** A user's data point is always tagged `user_name`, and `user_path` unless that is omitted. */
  lemma UserTagsNamePath(plugin: Users, user: User)
    ensures var t := UserTags(plugin, user);
      && "user_name" in t && t["user_name"] == user.userName
      && ("user_path" in t <==> !plugin.omitUserPath)
      && (!plugin.omitUserPath ==> t["user_path"] == user.path)
  {
    var base := Put(map["user_name" := user.userName], !plugin.omitUserPath, "user_path", user.path);
    WithUserTagsKeeps(base, user.tags);
    NamePathNotTagKeys();
  }

  /**
   * Unless they are omitted, each of the user's tags appears as `tag_<key>`, with the value of
   * the last tag given for that key; when they are omitted none does.
   */
  lemma UserTagsCarried(plugin: Users, user: User)
    ensures var t := UserTags(plugin, user);
      && (forall j :: 0 <= j < |user.tags| ==> ("tag_" + user.tags[j].0 in t <==> !plugin.omitUserTags))
      && (forall j :: 0 <= j < |user.tags| && !plugin.omitUserTags
            && (forall l :: j < l < |user.tags| ==> user.tags[l].0 != user.tags[j].0)
            ==> t["tag_" + user.tags[j].0] == user.tags[j].1)
  {
    var base := Put(map["user_name" := user.userName], !plugin.omitUserPath, "user_path", user.path);
    WithUserTagsSets(base, user.tags);
    NamePathNotTagKeys();
    forall j | 0 <= j < |user.tags|
      ensures "tag_" + user.tags[j].0 !in base
    {
      TagKeyShape(user.tags[j].0);
    }
  }

  /** A user's data point has no tag beyond `user_name`, `user_path` and `tag_<key>` for the user's tags. */
  lemma UserTagsNothingElse(plugin: Users, user: User)
    ensures var t := UserTags(plugin, user);
      forall k :: k in t ==>
        k == "user_name" || k == "user_path" || exists j :: 0 <= j < |user.tags| && k == "tag_" + user.tags[j].0
  {
    var base := Put(map["user_name" := user.userName], !plugin.omitUserPath, "user_path", user.path);
    WithUserTagsKeeps(base, user.tags);
  }

  /**
   * The key scan succeeds exactly when every last-used lookup does, giving their times in
   * order; otherwise it fails with the error of the first lookup that fails.
   */
  lemma LastUsedTimesOutcome(keys: seq<AccessKey>, lastUsed: string -> Result<Time, string>)
    ensures var r := LastUsedTimes(keys, lastUsed);
      r.Success? <==> forall i :: 0 <= i < |keys| ==> lastUsed(keys[i].id).Success?
    ensures var r := LastUsedTimes(keys, lastUsed);
      r.Success? ==> forall i :: 0 <= i < |keys| ==> r.value[i] == lastUsed(keys[i].id).value
    ensures var r := LastUsedTimes(keys, lastUsed);
      r.Failure? ==> exists k :: 0 <= k < |keys| && lastUsed(keys[k].id) == Failure(r.error)
                                && forall i :: 0 <= i < k ==> lastUsed(keys[i].id).Success?
  {
    LastUsedTimesSucceed(keys, lastUsed);
    LastUsedTimesFail(keys, lastUsed);
  }

  /** The half of `LastUsedTimesOutcome` about lookups that all succeed. */
  lemma {:induction false} LastUsedTimesSucceed(keys: seq<AccessKey>, lastUsed: string -> Result<Time, string>)
    ensures var r := LastUsedTimes(keys, lastUsed);
      r.Success? <==> forall i :: 0 <= i < |keys| ==> lastUsed(keys[i].id).Success?
    ensures var r := LastUsedTimes(keys, lastUsed);
      r.Success? ==> forall i :: 0 <= i < |keys| ==> r.value[i] == lastUsed(keys[i].id).value
    decreases |keys|
  {
    if |keys| > 0 {
      var n := |keys| - 1;
      LastUsedTimesSucceed(keys[..n], lastUsed);
      assert forall i :: 0 <= i < n ==> keys[..n][i] == keys[i];
    }
  }

  /** The half of `LastUsedTimesOutcome` about a lookup that fails. */
  lemma {:induction false} LastUsedTimesFail(keys: seq<AccessKey>, lastUsed: string -> Result<Time, string>)
    ensures var r := LastUsedTimes(keys, lastUsed);
      r.Failure? ==> exists k :: 0 <= k < |keys| && lastUsed(keys[k].id) == Failure(r.error)
                                && forall i :: 0 <= i < k ==> lastUsed(keys[i].id).Success?
    decreases |keys|
  {
    if |keys| > 0 {
      var n := |keys| - 1;
      var r := LastUsedTimes(keys[..n], lastUsed);
      if r.Failure? {
        assert LastUsedTimes(keys, lastUsed) == r;
        LastUsedTimesFail(keys[..n], lastUsed);
        var k :| 0 <= k < n && lastUsed(keys[..n][k].id) == Failure(r.error)
                 && forall i :: 0 <= i < k ==> lastUsed(keys[..n][i].id).Success?;
        assert forall i :: 0 <= i <= k ==> keys[..n][i] == keys[i];
      } else {
        LastUsedTimesSucceed(keys[..n], lastUsed);
        assert forall i :: 0 <= i < n ==> keys[..n][i] == keys[i];
      }
    }
  }


  /**
   * "with login and access keys" (plugins/source/aws/iam/users_test.go): two keys created
   * 20ns before and after the user, one of them active, used 40ns and 50ns after; a password
   * used 30ns after; the data point taken 99ns after the user was created.
   */
  lemma BobExample(tz: Time, lastUsed: string -> Result<Time, string>)
    requires tz > ZeroTime + 100
    requires lastUsed("A") == Success(tz + 40) && lastUsed("B") == Success(tz + 50)
    ensures var keys := [AccessKey("A", "inactive", tz - 20), AccessKey("B", "active", tz + 20)];
      var user := User("bob", "/friends/", tz, Some(tz + 30), [("MyTag", "MyValue")]);
      UserStatsOf(Users(false, false), tz + 99, user, Success(keys), lastUsed)
      == Success(Datum("aws_iam_user", tz + 99,
                       map["user_name" := "bob", "user_path" := "/friends/", "tag_MyTag" := "MyValue"],
                       map["age" := DurationValue(99), "active_key_count" := IntValue(Int, 1),
                           "oldest_key_age" := DurationValue(119), "since_last_activity" := DurationValue(49),
                           "since_last_login_activity" := DurationValue(69),
                           "since_last_key_activity" := DurationValue(49)]))
  {
    var keys := [AccessKey("A", "inactive", tz - 20), AccessKey("B", "active", tz + 20)];
    var user := User("bob", "/friends/", tz, Some(tz + 30), [("MyTag", "MyValue")]);
    BobKeys(tz);
    BobLastUsed(tz, lastUsed);
    BobFields(tz);
    BobTags(tz);
  }

  /** Bob's keys: one of them active, the older one created 20ns before him. */
  lemma BobKeys(tz: Time)
    requires tz > ZeroTime + 100
    ensures var keys := [AccessKey("A", "inactive", tz - 20), AccessKey("B", "active", tz + 20)];
      OldestKeyCreated(keys) == tz - 20 && ActiveKeyCount(keys) == 1
  {
    var a := AccessKey("A", "inactive", tz - 20);
    var keys := [a, AccessKey("B", "active", tz + 20)];
    assert keys[..1] == [a] && [a][..0] == [];
    assert OldestKeyCreated([a]) == tz - 20;
    assert ActiveKeyCount([a]) == 0;
  }

  /** The last-used times of Bob's keys, in key order, and the later of them. */
  lemma BobLastUsed(tz: Time, lastUsed: string -> Result<Time, string>)
    requires tz > ZeroTime + 100
    requires lastUsed("A") == Success(tz + 40) && lastUsed("B") == Success(tz + 50)
    ensures LastUsedTimes([AccessKey("A", "inactive", tz - 20), AccessKey("B", "active", tz + 20)], lastUsed)
         == Success([tz + 40, tz + 50])
    ensures LatestKeyActivity([tz + 40, tz + 50]) == tz + 50
  {
    var a := AccessKey("A", "inactive", tz - 20);
    var keys := [a, AccessKey("B", "active", tz + 20)];
    assert keys[..1] == [a] && [a][..0] == [];
    assert LastUsedTimes([], lastUsed) == Success([]);
    assert [] + [tz + 40] == [tz + 40] && [tz + 40] + [tz + 50] == [tz + 40, tz + 50];
    assert LastUsedTimes([a], lastUsed) == Success([tz + 40]);
    assert [tz + 40, tz + 50][..1] == [tz + 40] && [tz + 40][..0] == [];
    assert LatestKeyActivity([tz + 40]) == tz + 40;
  }

  lemma BobFields(tz: Time)
    requires tz > ZeroTime + 100
    ensures UserFields(tz + 99, User("bob", "/friends/", tz, Some(tz + 30), [("MyTag", "MyValue")]),
                       [AccessKey("A", "inactive", tz - 20), AccessKey("B", "active", tz + 20)], [tz + 40, tz + 50])
         == map["age" := DurationValue(99), "active_key_count" := IntValue(Int, 1),
                "oldest_key_age" := DurationValue(119), "since_last_activity" := DurationValue(49),
                "since_last_login_activity" := DurationValue(69), "since_last_key_activity" := DurationValue(49)]
  {
    BobKeys(tz);
    assert [tz + 40, tz + 50][..1] == [tz + 40] && [tz + 40][..0] == [];
    assert LatestKeyActivity([tz + 40]) == tz + 40;
    assert LatestKeyActivity([tz + 40, tz + 50]) == tz + 50;
  }

  lemma BobTags(tz: Time)
    ensures UserTags(Users(false, false), User("bob", "/friends/", tz, Some(tz + 30), [("MyTag", "MyValue")]))
         == map["user_name" := "bob", "user_path" := "/friends/", "tag_MyTag" := "MyValue"]
  {
    var tags := [("MyTag", "MyValue")];
    assert tags[..0] == [] && "tag_" + "MyTag" == "tag_MyTag";
    assert WithUserTags(map["user_name" := "bob", "user_path" := "/friends/"], tags)
        == map["user_name" := "bob", "user_path" := "/friends/", "tag_MyTag" := "MyValue"];
  }
}
