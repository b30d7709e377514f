/**
 * `instanceStats` of the `aws_ec2_instances` source (plugins/source/aws/ec2/instances.go)
 * and its helpers `oneof`, `instanceFamily` and `imageCreationDate`. The image lookup is an
 * AWS call behind a cache; its outcome is an input.
 */
module Ec2Instances {
  import opened Wrappers
  import opened Util
  import opened Metric

  const MetricName := "aws_ec2_instance"

  /** The plugin's options. */
  datatype Instances = Instances(ignoreImageDetails: bool, looseInstanceFamily: bool)

  /** An instance as `DescribeInstances` reports it; the optional strings may be absent (nil). */
  datatype Instance = Instance(id: string, state: string, platform: Option<string>, instanceType: string,
                               lifecycle: Option<string>, imageId: string, launchTime: Time)

  /** An image as `DescribeImages` reports it. */
  datatype Image = Image(name: string, creationDate: Option<TimeText>)

  /** `oneof(either, or)`: the string `or` points to, unless it is absent or empty. */
  function Oneof(either: string, or: Option<string>): (r: string)
    ensures or.Some? && or.value != "" ==> r == or.value
    ensures r == either || (or == Some(r) && r != "")
  {
    if or.Some? && or.value != "" then or.value else either
  }

  /** `strings.Split(s, ".")[0]`: the part of `s` before its first `.`, or all of `s`. */
  function BeforeDot(s: string): (r: string)
    ensures |r| <= |s| && r == s[..|r|]
    ensures '.' !in r
    ensures r == s || s[|r|] == '.'
    decreases |s|
  {
    if |s| == 0 || s[0] == '.' then "" else [s[0]] + BeforeDot(s[1..])
  }

  /**
   * `instanceFamily`: the first two characters when `loose` (the source slices them and
   * panics on a shorter type), and otherwise the part before the first `.`.
   */
  function InstanceFamily(instanceType: string, loose: bool): (r: string)
    requires loose ==> |instanceType| >= 2
    ensures loose ==> r == instanceType[..2]
    ensures !loose ==> r == BeforeDot(instanceType)
  {
    if loose then instanceType[..2] else BeforeDot(instanceType)
  }

  /**
   * `imageCreationDate`: an absent date fails with "cannot parse nil time"; a present one is
   * what `time.Parse` makes of it. Every failure comes with the zero time.
   */
  function ImageCreationDate(s: Option<TimeText>): (r: (Time, Option<string>))
    ensures r.1.Some? ==> IsZero(r.0)
    ensures s.None? ==> r.1 == Some("cannot parse nil time")
    ensures s.Some? && s.value.parsed.Success? ==> r == (s.value.parsed.value, None)
    ensures s.Some? && s.value.parsed.Failure? ==> r == (ZeroTime, Some(s.value.parsed.error))
  {
    match s
    case None => (ZeroTime, Some("cannot parse nil time"))
    case Some(text) =>
      match text.parsed
      case Success(t) => (t, None)
      case Failure(e) => (ZeroTime, Some(e))
  }

  /** Whether the image's details are written: they are asked for and the lookup succeeded. */
  predicate WithImage(plugin: Instances, image: Option<Image>) {
    !plugin.ignoreImageDetails && image.Some?
  }

  function InstanceTags(plugin: Instances, instance: Instance, image: Option<Image>): map<string, string>
    requires plugin.looseInstanceFamily ==> |instance.instanceType| >= 2
  {
    var tags := map["id" := instance.id, "state" := instance.state, "platform" := Oneof("linux", instance.platform),
                    "type" := instance.instanceType,
                    "family" := InstanceFamily(instance.instanceType, plugin.looseInstanceFamily),
                    "lifecycle" := Oneof("normal", instance.lifecycle), "image_id" := instance.imageId];
    if WithImage(plugin, image) then tags["image_name" := image.value.name] else tags
  }

  function InstanceFields(plugin: Instances, now: Time, instance: Instance, image: Option<Image>): map<string, FieldValue> {
    var fields := map["age" := DurationValue(now - instance.launchTime)];
    if WithImage(plugin, image) && ImageCreationDate(image.value.creationDate).1.None? then
      fields["image_age" := DurationValue(now - ImageCreationDate(image.value.creationDate).0)]
    else fields
  }

  /**
   * `instanceStats`: writes the instance's tags and its age, then the image's name and age
   * when its details are asked for and found. It never returns an error.
   */
  method InstanceStats(plugin: Instances, now: Time, instance: Instance, image: Option<Image>)
    returns (d: Datum, err: Option<string>)
    requires plugin.looseInstanceFamily ==> |instance.instanceType| >= 2
    ensures err == None
    ensures d == Datum(MetricName, now, InstanceTags(plugin, instance, image), InstanceFields(plugin, now, instance, image))
  {
    var tags: map<string, string> := map[];
    var fields: map<string, FieldValue> := map[];
    tags := tags["id" := instance.id];
    tags := tags["state" := instance.state];
    tags := tags["platform" := Oneof("linux", instance.platform)];
    tags := tags["type" := instance.instanceType];
    tags := tags["family" := InstanceFamily(instance.instanceType, plugin.looseInstanceFamily)];
    tags := tags["lifecycle" := Oneof("normal", instance.lifecycle)];
    tags := tags["image_id" := instance.imageId];
    fields := fields["age" := DurationValue(now - instance.launchTime)];
    if !plugin.ignoreImageDetails {
      if image.Some? {
        tags := tags["image_name" := image.value.name];
        var (t, e) := ImageCreationDate(image.value.creationDate);
        if e.None? {
          fields := fields["image_age" := DurationValue(now - t)];
        }
      }
    }
    d, err := Datum(MetricName, now, tags, fields), None;
  }

  /**
   * The tags of an instance's data point: the seven instance tags with their defaults,
   * `image_name` exactly when the image's details are written, and nothing else.
   */
  lemma InstanceTagsFacts(plugin: Instances, instance: Instance, image: Option<Image>)
    requires plugin.looseInstanceFamily ==> |instance.instanceType| >= 2
    ensures var t := InstanceTags(plugin, instance, image);
      && t.Keys == {"id", "state", "platform", "type", "family", "lifecycle", "image_id"}
                   + (if WithImage(plugin, image) then {"image_name"} else {})
      && t["id"] == instance.id && t["state"] == instance.state && t["type"] == instance.instanceType
      && t["image_id"] == instance.imageId
      && (instance.platform.Some? && instance.platform.value != "" ==> t["platform"] == instance.platform.value)
      && (instance.platform.None? || instance.platform == Some("") ==> t["platform"] == "linux")
      && (instance.lifecycle.Some? && instance.lifecycle.value != "" ==> t["lifecycle"] == instance.lifecycle.value)
      && (instance.lifecycle.None? || instance.lifecycle == Some("") ==> t["lifecycle"] == "normal")
      && t["family"] == InstanceFamily(instance.instanceType, plugin.looseInstanceFamily)
      && (WithImage(plugin, image) ==> t["image_name"] == image.value.name)
  {
  }

  /**
   * The fields of an instance's data point: `age` from the launch time always, and
   * `image_age` exactly when the image's details are written and its creation date parses.
   */
  lemma InstanceFieldsFacts(plugin: Instances, now: Time, instance: Instance, image: Option<Image>)
    ensures var f := InstanceFields(plugin, now, instance, image);
      && "age" in f && f["age"] == DurationValue(now - instance.launchTime)
      && ("image_age" in f <==>
            WithImage(plugin, image) && image.value.creationDate.Some? && image.value.creationDate.value.parsed.Success?)
      && ("image_age" in f ==> f["image_age"] == DurationValue(now - image.value.creationDate.value.parsed.value))
      && f.Keys <= {"age", "image_age"}
  {
  }

  /** Before the first `.`: a dot-free prefix followed by `.` is exactly what is kept. */
  lemma {:induction false} BeforeDotOf(p: string, rest: string)
    requires '.' !in p
    ensures BeforeDot(p + "." + rest) == p
    decreases |p|
  {
    if |p| > 0 {
      assert (p + "." + rest)[1..] == p[1..] + "." + rest;
      BeforeDotOf(p[1..], rest);
      assert p == [p[0]] + p[1..];
    } else {
      assert (p + "." + rest)[0] == '.';
    }
  }

  /** The cases of plugins/source/aws/ec2/instances_test.go. */
  lemma InstanceFamilyExamples()
    ensures InstanceFamily("t3.small", false) == "t3"
    ensures InstanceFamily("t3a.small", false) == "t3a"
    ensures InstanceFamily("t3a.small", true) == "t3"
    ensures InstanceFamily("r5ad.xlarge", false) == "r5ad"
    ensures InstanceFamily("r5ad.xlarge", true) == "r5"
  {
    assert "t3a.small"[..2] == "t3" && "r5ad.xlarge"[..2] == "r5";
    StrictFamilyExamples();
  }

  /** The strict family of three instance types. */
  lemma StrictFamilyExamples()
    ensures BeforeDot("t3.small") == "t3" && BeforeDot("t3a.small") == "t3a" && BeforeDot("r5ad.xlarge") == "r5ad"
  {
    BeforeDotOf("t3", "small");
    assert "t3" + "." + "small" == "t3.small";
    BeforeDotOf("t3a", "small");
    assert "t3a" + "." + "small" == "t3a.small";
    BeforeDotOf("r5ad", "xlarge");
    assert "r5ad" + "." + "xlarge" == "r5ad.xlarge";
  }
}
